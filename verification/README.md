# simpleGov proposal and message layer, in Dafny

This project models the proposal and message layer of the simple-governance
example module of the Cosmos SDK (`x/simple_governance/types.go`):

- the `Proposal` record and its constructor `NewProposal`, which opens a
  proposal with all three tallies at zero;
- `updateTally`, which adds a vote weight to the Yes, No or Abstain counter
  and panics on any other option string;
- the `ProposalQueue` of proposal ids and its emptiness check;
- the two messages, `SubmitProposalMsg` and `VoteMsg`: their constructors,
  `Type()` (the route `"simpleGov"`), `GetSigners()`, and `ValidateBasic()`,
  an ordered chain of structural checks in which the first failure is
  reported.

Modules:

- `Outcomes` (`outcomes.dfy`): `Option`, `Result`, `Outcome`, and
  `FirstFailure`, the generic "run the checks in order, report the first that
  fails" rule.
- `GoInts` (`goints.dfy`): the `int64`/`uint64` ranges, Go's wrap-around of
  `int64` addition (`Wrap`) and the `int64(uint64)` conversion (`ToInt64`).
- `SimpleGovernance` (`types.dfy`): options and states as closed
  enumerations with their string spellings, `Proposal`, `NewProposal`,
  `UpdateTally` (on the enumeration), `UpdateTallyByName` (the Go string
  switch, with the panic as an error value), `IsEmpty`.
- `Msgs` (`msgs.dfy`): error kinds, the two messages, their constructors,
  route, signers and validation.
- `Tallying` (`tallying.dfy`): what a sequence of tally updates adds up to,
  and that two updates commute.
- `Findings` (`findings.dfy`): two defects of `types.go`, modelled as written.

Modelling choices:

- The deposit (`sdk.Coins`) is a type parameter `C`. The coin library's
  `IsValid` and `IsPositive` are the two function fields of `CoinRules<C>`,
  passed to the submit validation; no coin rule is defined here.
- An address (`sdk.Address`) is a byte sequence; only its emptiness is used.
- Errors are the enumeration `GovError`. The two `ErrInvalidCoins` results of
  the submit validation are told apart by `CoinsFault` (`NotValid`,
  `NotPositive`), and `InvalidOption` carries the rejected option string.
  Codespaces and traces are not modelled.
- The counters, the submit block and the proposal id are `int64`. Go's
  `+=` on `int64` wraps silently, so `UpdateTally` wraps with `GoInts.Wrap`.
  The "turnout grows by exactly the weight" property holds when the counter
  does not overflow. In every case it holds modulo 2^64.
- The proposal state is a closed enumeration `Open | Passed | Rejected`.
  `types.go` only ever writes `"Open"`; the other two states are the model's
  own closure, naming the outcomes a proposal is resolved to.
- The voting window is a `uint64` converted with `int64(...)`, so a window
  above `MaxInt64` is stored as a negative block limit.

Where the code, as written, cannot be taken literally:

- The comments above `NewProposal` say it validates the deposit and defaults
  the block limit to 1209600. The code does neither: it stores the deposit and
  the caller's window as given. The model follows the code.
- `types.go` does not compile. `NewProposal` sets a `BlockLimit` field that the
  `Proposal` struct does not declare. The model adds the field `blockLimit`.
- `updateTally` has a value receiver `p` but mutates an undeclared `proposal`,
  and returns `nil` from a function with no result. The model is a pure function
  that returns the updated proposal (see Findings).
- The vote validation applies `len` to the `int64` proposal id. The model
  reads the check as "id ≤ 0 is rejected with `InvalidProposalID`". Its error
  text says the id "cannot be negative", yet the comparison rejects 0 too. The
  model follows the comparison, so id 0 is rejected.
- The option guard of the vote validation is a tautology as written. The model
  uses the evidently intended rule "an option other than `Yes`, `No` or
  `Abstain` is rejected" (see Findings).

## Model

| member | source | states |
|---|---|---|
| GoInts.Wrap | examples/simpleGov/x/simple_governance/types.go:19-21 | a value that fits in `int64` is stored unchanged |
| GoInts.WrapAgrees | examples/simpleGov/x/simple_governance/types.go:19-21 | the stored `int64` differs from the exact value by a multiple of 2^64 |
| GoInts.WrapAddWrap | examples/simpleGov/x/simple_governance/types.go:52 | adding to an already wrapped counter gives the exact sum wrapped once, so repeated `+=` never loses more than a multiple of 2^64 |
| GoInts.ToInt64 | examples/simpleGov/x/simple_governance/types.go:40 | `int64(votingWindow)` keeps windows up to `MaxInt64` and turns larger ones negative (`u - 2^64`) |
| SimpleGovernance.ParseOption | examples/simpleGov/x/simple_governance/types.go:50-61 | an option string is recognised iff it is exactly `Yes`, `No` or `Abstain`, and the recognised option spells back to the same string |
| SimpleGovernance.ParseState | examples/simpleGov/x/simple_governance/types.go:16 | a state string is recognised iff it is `Open`, `Passed` or `Rejected`, and spells back to the same string |
| SimpleGovernance.NamesRoundTrip | examples/simpleGov/x/simple_governance/types.go:41 | every option and every state is read back as itself from its spelling |
| SimpleGovernance.NewProposal | examples/simpleGov/x/simple_governance/types.go:28-47 | a new proposal is `Open` (spelled `"Open"`), every counter and the turnout are 0, title, description, submitter, submit block and deposit are the arguments, and the block limit is the window converted to `int64`: the window itself up to `MaxInt64`, the window minus 2^64 (a negative value) above it |
| SimpleGovernance.UpdateTally | examples/simpleGov/x/simple_governance/types.go:49-58 | only the chosen option's counter changes, by `amount` in `int64` arithmetic; the other two counters and every non-tally field are unchanged; without overflow the turnout grows by exactly `amount` |
| SimpleGovernance.UpdateTallyTurnout | examples/simpleGov/x/simple_governance/types.go:49-58 | even with overflow, the turnout grows by `amount` modulo 2^64 |
| SimpleGovernance.UpdateTallyByName | examples/simpleGov/x/simple_governance/types.go:49-62 | the string switch succeeds iff the option parses, then equals the update on the parsed option; any other string is the panic |
| SimpleGovernance.IsEmpty | examples/simpleGov/x/simple_governance/types.go:66-74 | the queue is empty iff its length is 0, iff no proposal id is in it |
| Msgs.NewSubmitProposalMsg | examples/simpleGov/x/simple_governance/types.go:88-95 | the message holds the four arguments, and its signer list is the submitter alone |
| Msgs.NewVoteMsg | examples/simpleGov/x/simple_governance/types.go:161-167 | the message holds the three arguments, and its signer list is the voter alone |
| Msgs.SubmitType | examples/simpleGov/x/simple_governance/types.go:98-100 | a submit message reports the route `"simpleGov"` |
| Msgs.VoteType | examples/simpleGov/x/simple_governance/types.go:170-172 | a vote message reports the route `"simpleGov"` |
| Msgs.SameRoute | examples/simpleGov/app/app.go:73-76 | both message kinds report the one route the application registers for this module's handler |
| Msgs.SubmitSigners | examples/simpleGov/x/simple_governance/types.go:117-119 | the signers of a submit message are exactly `[submitter]` |
| Msgs.VoteSigners | examples/simpleGov/x/simple_governance/types.go:190-192 | the signers of a vote message are exactly `[voter]` |
| Msgs.ValidateSubmit | examples/simpleGov/x/simple_governance/types.go:122-143 | each error is reported exactly when its check fails and all earlier ones pass: empty submitter, empty title, empty description, invalid deposit, non-positive deposit; it passes iff the message is well formed |
| Msgs.ValidateSubmitIsFirstFailure | examples/simpleGov/x/simple_governance/types.go:122-143 | submit validation equals the generic first-failure rule over its five checks in source order |
| Msgs.ValidateVote | examples/simpleGov/x/simple_governance/types.go:195-207 | empty voter gives `UnrecognizedAddress`, else id ≤ 0 gives `InvalidProposalID`, else an unrecognised option gives `InvalidOption` with that option; it passes iff all three checks pass |
| Msgs.ValidateVoteIsFirstFailure | examples/simpleGov/x/simple_governance/types.go:195-207 | vote validation equals the generic first-failure rule over its three checks in source order |
| Msgs.ValidatedVoteReachesTally | examples/simpleGov/x/simple_governance/types.go:59-61 | for a non-empty voter and a positive id, a vote passes validation iff the tally update accepts its option, so a validated vote never reaches the panic |
| Msgs.ValidatedSignersNonEmpty | examples/simpleGov/x/simple_governance/types.go:117-198 | after either message passes validation, every signer it names is a non-empty address |
| Outcomes.FirstFailure | examples/simpleGov/x/simple_governance/types.go:122-143 | an ordered chain passes iff every check holds; otherwise it reports the error of a failing check all of whose predecessors hold |
| Tallying.StepCounter | examples/simpleGov/x/simple_governance/types.go:50-58 | one update moves a counter by the ballot's weight (in `int64` arithmetic) when the ballot is for that counter's option, and leaves it alone otherwise |
| Tallying.ApplyBallotsTally | examples/simpleGov/x/simple_governance/types.go:49-58 | after any sequence of tally updates, each counter is its start plus the weights cast for its option, wrapped once to `int64`; non-tally fields never change |
| Tallying.FreshProposalTally | examples/simpleGov/x/simple_governance/types.go:35-58 | from a new proposal, each counter is the wrapped sum of the weights cast for its option, exactly that sum when it fits in `int64`, and the proposal stays `Open` |
| Tallying.UpdateTallyCommutes | examples/simpleGov/x/simple_governance/types.go:49-58 | two tally updates give the same proposal in either order |
| Findings.OptionGuardIsTautology | examples/simpleGov/x/simple_governance/types.go:203 | the option guard as written holds for every string |
| Findings.ValidateVoteAsWritten | examples/simpleGov/x/simple_governance/types.go:195-205 | as written, vote validation never passes: every message with a voter and a positive id is rejected with `InvalidOption` |
| Findings.YesVoteRejectedAsWritten | examples/simpleGov/x/simple_governance/types.go:203-204 | the vote `(1, "Yes", [1])` is rejected as written and accepted by the corrected validation |
| Findings.UpdateTallyAsWritten | examples/simpleGov/x/simple_governance/types.go:49-62 | as written, the caller's proposal after the call is the one passed in for every recognised option; other strings panic |
| Findings.VoteLostThroughValueReceiver | examples/simpleGov/x/simple_governance/types.go:49-52 | a weight-1 `Yes` vote on a new proposal leaves `yesVotes` at 0 as written and makes it 1 in the corrected update |

## Left out

- The application wiring of `app/app.go` (store keys, keepers, router, store mounting, codec registration, genesis export): no checkable behaviour, and it depends on framework code that is not part of this model. Only the route name it registers is used, in `Msgs.SameRoute`.
- The keeper: id allocation, vote storage and replacement, end-of-window resolution, the pass/reject decision and the deposit refund or forfeit. Its code is not part of this model, so modelling it would invent behaviour.
- `GetSignBytes` and `String`: JSON marshalling and formatting done by foreign libraries.
- `Get` on both messages: a stub that always returns nil.
- `sdk.Coins.IsValid` and `IsPositive`: foreign coin-library predicates. They are parameters (`Msgs.CoinRules`) and are not defined.
- Error codespaces, `.Trace("")` and error message texts. Only `InvalidOption` keeps a piece of its text, the rejected option string, which the Go message also contains. The tally panic has a fixed message and is the value `UnknownOption`.
- Go strings are byte strings and `len` counts bytes; the model uses `seq<char>`. The two agree on the only properties used: emptiness, and equality with the ASCII spellings `Yes`, `No`, `Abstain`, `Open`, `Passed` and `Rejected`.

## Findings

| source | as written | input that shows it | evidently intended | confidence | as-written member | corrected member |
|---|---|---|---|---|---|---|
| examples/simpleGov/x/simple_governance/types.go:203 | the option guard joins three `!=` tests with `\|\|`, so it holds for every string and every vote with a voter and a positive id is rejected with `InvalidOption` | `VoteMsg(1, "Yes", [1])` | reject only options other than `Yes`, `No`, `Abstain` | high; not executed | Findings.YesVoteRejectedAsWritten | Msgs.ValidateVote |
| examples/simpleGov/x/simple_governance/types.go:49-58 | `updateTally` has a value receiver, so whatever it adds is lost to the caller (the body also names an undeclared `proposal`) | a new proposal, option `"Yes"`, amount 1: the caller still sees `yesVotes == 0` | the updated proposal reaches the caller (pointer receiver or returned value) | high; not executed, and the code does not compile as written | Findings.VoteLostThroughValueReceiver | SimpleGovernance.UpdateTally |
