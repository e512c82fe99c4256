/** The two messages of the simple-governance module, submit-proposal and
    vote: their constructors, the route name both report, their signer
    lists, and the structural checks of `ValidateBasic`. */
module Msgs {
  import opened GoInts
  import opened Outcomes
  import opened SimpleGovernance

  /** The route under which the application registers this module's handler,
      and which `Type()` reports for both messages. */
  const Route: string := "simpleGov"

  /** Which of the two coin checks a deposit failed. */
  datatype CoinsFault = NotValid | NotPositive

  /** The kinds of error `ValidateBasic` reports. */
  datatype GovError =
    | UnrecognizedAddress
    | InvalidTitle
    | InvalidDescription
    | InvalidCoins(fault: CoinsFault)
    | InvalidProposalID
    | InvalidOption(option: string)

  /** The coin library's two predicates on a deposit, which this module calls
      but does not define. */
  datatype CoinRules<!C> = CoinRules(isValid: C -> bool, isPositive: C -> bool)

  datatype SubmitProposalMsg<C> = SubmitProposalMsg(
    title: string,
    description: string,
    deposit: C,
    submitter: Address)

  datatype VoteMsg = VoteMsg(proposalID: Int64, option: string, voter: Address)

  function NewSubmitProposalMsg<C>(title: string, description: string, deposit: C,
                                   submitter: Address): (msg: SubmitProposalMsg<C>)
    ensures msg.title == title && msg.description == description
    ensures msg.deposit == deposit && msg.submitter == submitter
    ensures SubmitSigners(msg) == [submitter]
  {
    SubmitProposalMsg(title, description, deposit, submitter)
  }

  function NewVoteMsg(proposalID: Int64, option: string, voter: Address): (msg: VoteMsg)
    ensures msg.proposalID == proposalID && msg.option == option && msg.voter == voter
    ensures VoteSigners(msg) == [voter]
  {
    VoteMsg(proposalID, option, voter)
  }

  /** `Type()` of a submit message: the module's route. */
  function SubmitType<C>(msg: SubmitProposalMsg<C>): (r: string)
    ensures r == Route
  {
    "simpleGov"
  }

  /** `Type()` of a vote message: the module's route. */
  function VoteType(msg: VoteMsg): (r: string)
    ensures r == Route
  {
    "simpleGov"
  }

  /** Both message kinds are routed to the same handler. */
  lemma SameRoute<C>(s: SubmitProposalMsg<C>, v: VoteMsg)
    ensures SubmitType(s) == VoteType(v) == Route
  {
  }

  /** `GetSigners()` of a submit message: the submitter alone. */
  function SubmitSigners<C>(msg: SubmitProposalMsg<C>): (r: seq<Address>)
    ensures |r| == 1 && r[0] == msg.submitter
  {
    [msg.submitter]
  }

  /** `GetSigners()` of a vote message: the voter alone. */
  function VoteSigners(msg: VoteMsg): (r: seq<Address>)
    ensures |r| == 1 && r[0] == msg.voter
  {
    [msg.voter]
  }

  /** `ValidateBasic()` of a submit message. The checks run in the Go
      code's order and the first failure is reported: empty submitter, empty title,
      empty description, a deposit the coin library calls invalid, then one it
      does not call positive. */
  function ValidateSubmit<C>(msg: SubmitProposalMsg<C>, coins: CoinRules<C>): (r: Outcome<GovError>)
    ensures r == Fail(UnrecognizedAddress) <==> |msg.submitter| == 0
    ensures r == Fail(InvalidTitle) <==> |msg.submitter| > 0 && |msg.title| == 0
    ensures r == Fail(InvalidDescription) <==>
      |msg.submitter| > 0 && |msg.title| > 0 && |msg.description| == 0
    ensures r == Fail(InvalidCoins(NotValid)) <==>
      |msg.submitter| > 0 && |msg.title| > 0 && |msg.description| > 0
      && !coins.isValid(msg.deposit)
    ensures r == Fail(InvalidCoins(NotPositive)) <==>
      |msg.submitter| > 0 && |msg.title| > 0 && |msg.description| > 0
      && coins.isValid(msg.deposit) && !coins.isPositive(msg.deposit)
    ensures r == Pass <==> SubmitWellFormed(msg, coins)
  {
    if |msg.submitter| == 0 then Fail(UnrecognizedAddress)
    else if |msg.title| <= 0 then Fail(InvalidTitle)
    else if |msg.description| <= 0 then Fail(InvalidDescription)
    else if !coins.isValid(msg.deposit) then Fail(InvalidCoins(NotValid))
    else if !coins.isPositive(msg.deposit) then Fail(InvalidCoins(NotPositive))
    else Pass
  }

  /** What an accepted submission has: a signer, a title, a description and a
      valid, positive deposit. */
  predicate SubmitWellFormed<C>(msg: SubmitProposalMsg<C>, coins: CoinRules<C>) {
    && msg.submitter != []
    && msg.title != []
    && msg.description != []
    && coins.isValid(msg.deposit)
    && coins.isPositive(msg.deposit)
  }

  /** The submit checks as an ordered list, for the generic first-failure rule. */
  function SubmitChecks<C>(msg: SubmitProposalMsg<C>, coins: CoinRules<C>): seq<Check<GovError>> {
    [ Check(|msg.submitter| != 0, UnrecognizedAddress),
      Check(|msg.title| > 0, InvalidTitle),
      Check(|msg.description| > 0, InvalidDescription),
      Check(coins.isValid(msg.deposit), InvalidCoins(NotValid)),
      Check(coins.isPositive(msg.deposit), InvalidCoins(NotPositive)) ]
  }

  /** `ValidateSubmit` reports the first failing check of its list. */
  lemma ValidateSubmitIsFirstFailure<C>(msg: SubmitProposalMsg<C>, coins: CoinRules<C>)
    ensures ValidateSubmit(msg, coins) == FirstFailure(SubmitChecks(msg, coins))
  {
    var cs := SubmitChecks(msg, coins);
    FirstFailureStep(cs);
    FirstFailureStep(cs[1..]);
    FirstFailureStep(cs[2..]);
    FirstFailureStep(cs[3..]);
    FirstFailureStep(cs[4..]);
    assert cs[1..][1..] == cs[2..] && cs[2..][1..] == cs[3..] && cs[3..][1..] == cs[4..];
    assert cs[4..][1..] == [];
  }

  /** `ValidateBasic()` of a vote message: empty voter, then a proposal id
      that is not positive, then an option other than the three spellings. */
  function ValidateVote(msg: VoteMsg): (r: Outcome<GovError>)
    ensures r == Fail(UnrecognizedAddress) <==> |msg.voter| == 0
    ensures r == Fail(InvalidProposalID) <==> |msg.voter| > 0 && msg.proposalID <= 0
    ensures r == Fail(InvalidOption(msg.option)) <==>
      |msg.voter| > 0 && msg.proposalID > 0 && ParseOption(msg.option).None?
    ensures r == Pass <==> |msg.voter| > 0 && msg.proposalID > 0 && ParseOption(msg.option).Some?
  {
    if |msg.voter| == 0 then Fail(UnrecognizedAddress)
    else if msg.proposalID <= 0 then Fail(InvalidProposalID)
    else if msg.option != "Yes" && msg.option != "No" && msg.option != "Abstain" then
      Fail(InvalidOption(msg.option))
    else Pass
  }

  /** The vote checks as an ordered list, for the generic first-failure rule. */
  function VoteChecks(msg: VoteMsg): seq<Check<GovError>> {
    [ Check(|msg.voter| != 0, UnrecognizedAddress),
      Check(msg.proposalID > 0, InvalidProposalID),
      Check(ParseOption(msg.option).Some?, InvalidOption(msg.option)) ]
  }

  /** `ValidateVote` reports the first failing check of its list. */
  lemma ValidateVoteIsFirstFailure(msg: VoteMsg)
    ensures ValidateVote(msg) == FirstFailure(VoteChecks(msg))
  {
    var cs := VoteChecks(msg);
    FirstFailureStep(cs);
    FirstFailureStep(cs[1..]);
    FirstFailureStep(cs[2..]);
    assert cs[1..][1..] == cs[2..];
    assert cs[2..][1..] == [];
  }

  /** A vote that passes validation never reaches the tally's panic branch,
      and for a voter and id that pass, the options validation accepts are
      exactly the ones the tally update handles. */
  lemma ValidatedVoteReachesTally<C>(msg: VoteMsg, p: Proposal<C>, weight: Int64)
    requires |msg.voter| > 0 && msg.proposalID > 0
    ensures ValidateVote(msg) == Pass <==> UpdateTallyByName(p, msg.option, weight).Ok?
  {
  }

  /** After a message passes validation, every signer it names is a
      recognised (non-empty) address. */
  lemma ValidatedSignersNonEmpty<C>(s: SubmitProposalMsg<C>, coins: CoinRules<C>, v: VoteMsg)
    ensures ValidateSubmit(s, coins) == Pass ==>
      forall a :: a in SubmitSigners(s) ==> |a| > 0
    ensures ValidateVote(v) == Pass ==>
      forall a :: a in VoteSigners(v) ==> |a| > 0
  {
  }
}
