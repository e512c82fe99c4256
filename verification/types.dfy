/** The proposal record of the simple-governance module: its construction,
    the per-option tally update, the proposal-id queue, and the closed
    enumerations that replace the Go code's option and state strings. */
module SimpleGovernance {
  import opened GoInts
  import opened Outcomes

  /** An account address; only its emptiness matters to this module. */
  type Address = seq<bv8>

  /** The three vote options; the Go code carries them as strings. */
  datatype VoteOption = Yes | No | Abstain

  /** The lifecycle state of a proposal; the Go code carries it as a string.
      Only `"Open"` is written by `types.go`; `Passed` and `Rejected` close
      the set with the two outcomes a proposal can be resolved to. */
  datatype ProposalState = Open | Passed | Rejected

  /** The Go spelling of an option. */
  function OptionName(o: VoteOption): string {
    match o
    case Yes => "Yes"
    case No => "No"
    case Abstain => "Abstain"
  }

  /** Reads an option string; only the three exact spellings are options. */
  function ParseOption(s: string): (r: Option<VoteOption>)
    ensures r.Some? <==> s in {"Yes", "No", "Abstain"}
    ensures r.Some? ==> OptionName(r.value) == s
  {
    if s == "Yes" then Some(Yes)
    else if s == "No" then Some(No)
    else if s == "Abstain" then Some(Abstain)
    else None
  }

  /** The string spelling of a state (`"Open"` as `types.go` writes it). */
  function StateName(st: ProposalState): string {
    match st
    case Open => "Open"
    case Passed => "Passed"
    case Rejected => "Rejected"
  }

  /** Reads a state string. */
  function ParseState(s: string): (r: Option<ProposalState>)
    ensures r.Some? <==> s in {"Open", "Passed", "Rejected"}
    ensures r.Some? ==> StateName(r.value) == s
  {
    if s == "Open" then Some(Open)
    else if s == "Passed" then Some(Passed)
    else if s == "Rejected" then Some(Rejected)
    else None
  }

  /** Every option and every state survives being written out and read back. */
  lemma NamesRoundTrip(o: VoteOption, st: ProposalState)
    ensures ParseOption(OptionName(o)) == Some(o)
    ensures ParseState(StateName(st)) == Some(st)
  {
  }

  /** A proposal over a deposit of type `C`. `blockLimit` is the voting
      window in blocks; the Go constructor sets it although the
      struct does not declare it. */
  datatype Proposal<C> = Proposal(
    title: string,
    description: string,
    submitter: Address,
    submitBlock: Int64,
    blockLimit: Int64,
    state: ProposalState,
    deposit: C,
    yesVotes: Int64,
    noVotes: Int64,
    abstainVotes: Int64)

  /** The counter a given option contributes to. */
  function Counter<C>(p: Proposal<C>, o: VoteOption): Int64 {
    match o
    case Yes => p.yesVotes
    case No => p.noVotes
    case Abstain => p.abstainVotes
  }

  /** The mathematical sum of the three counters. */
  function Turnout<C>(p: Proposal<C>): int {
    p.yesVotes + p.noVotes + p.abstainVotes
  }

  /** `q` agrees with `p` on every field that is not a tally counter. */
  ghost predicate SameExceptTally<C>(p: Proposal<C>, q: Proposal<C>) {
    && q.title == p.title
    && q.description == p.description
    && q.submitter == p.submitter
    && q.submitBlock == p.submitBlock
    && q.blockLimit == p.blockLimit
    && q.state == p.state
    && q.deposit == p.deposit
  }

  /** A fresh proposal: open, with nothing tallied, and every argument stored
      as given (the window through Go's `int64(votingWindow)` conversion). */
  function NewProposal<C>(title: string, description: string, submitter: Address,
                          blockHeight: Int64, votingWindow: Uint64, deposit: C): (r: Proposal<C>)
    ensures r.state == Open && StateName(r.state) == "Open"
    ensures forall o :: Counter(r, o) == 0
    ensures Turnout(r) == 0
    ensures r.title == title && r.description == description && r.submitter == submitter
    ensures r.submitBlock == blockHeight && r.deposit == deposit
    ensures votingWindow <= MaxInt64 ==> r.blockLimit == votingWindow
    ensures votingWindow > MaxInt64 ==> r.blockLimit == votingWindow - TwoTo64 < 0
  {
    Proposal(title, description, submitter, blockHeight, ToInt64(votingWindow),
             Open, deposit, 0, 0, 0)
  }

  /** Adds `amount` to the counter of `option` with Go's `int64` addition and
      returns the updated proposal. Nothing else changes, and when the counter
      does not overflow the turnout grows by exactly `amount`. */
  function UpdateTally<C>(p: Proposal<C>, option: VoteOption, amount: Int64): (r: Proposal<C>)
    ensures SameExceptTally(p, r)
    ensures Counter(r, option) == Wrap(Counter(p, option) + amount)
    ensures forall o :: o != option ==> Counter(r, o) == Counter(p, o)
    ensures IsInt64(Counter(p, option) + amount) ==> Turnout(r) == Turnout(p) + amount
  {
    match option
    case Yes => p.(yesVotes := Wrap(p.yesVotes + amount))
    case No => p.(noVotes := Wrap(p.noVotes + amount))
    case Abstain => p.(abstainVotes := Wrap(p.abstainVotes + amount))
  }

  /** Whatever the overflow, the turnout of an updated proposal grows by
      `amount` modulo 2^64. */
  lemma UpdateTallyTurnout<C>(p: Proposal<C>, option: VoteOption, amount: Int64)
    ensures (Turnout(UpdateTally(p, option, amount)) - Turnout(p) - amount) % TwoTo64 == 0
  {
    var r := UpdateTally(p, option, amount);
    var d := Counter(r, option) - Counter(p, option) - amount;
    WrapAgrees(Counter(p, option) + amount);
    assert d % TwoTo64 == 0;
    assert Turnout(r) - Turnout(p) - amount == d by {
      match option
      case Yes =>
      case No =>
      case Abstain =>
    }
  }

  /** The panic of the Go `default` branch, as an error value. Its fixed
      message does not name the option, so neither does the value. */
  datatype TallyPanic = UnknownOption

  /** The Go `switch option` over option strings: the three spellings
      update their counter, every other string is the panic branch. */
  function UpdateTallyByName<C>(p: Proposal<C>, option: string, amount: Int64)
    : (r: Result<Proposal<C>, TallyPanic>)
    ensures r.Ok? <==> ParseOption(option).Some?
    ensures r.Ok? ==> r.value == UpdateTally(p, ParseOption(option).value, amount)
    ensures r.Err? ==> r.error == UnknownOption
  {
    match option
    case "Yes" => Ok(UpdateTally(p, Yes, amount))
    case "No" => Ok(UpdateTally(p, No, amount))
    case "Abstain" => Ok(UpdateTally(p, Abstain, amount))
    case _ => Err(UnknownOption)
  }

  /** The queue of proposal ids awaiting resolution. */
  type ProposalQueue = seq<Int64>

  /** True exactly when no proposal id is queued. */
  function IsEmpty(pq: ProposalQueue): (r: bool)
    ensures r <==> |pq| == 0
    ensures !r <==> exists id :: id in pq
  {
    if |pq| == 0 then true else assert pq[0] in pq; false
  }
}
