/** Two defects of `types.go`, each modelled as written beside the
    corrected definition the rest of the model uses. */
module Findings {
  import opened GoInts
  import opened Outcomes
  import opened SimpleGovernance
  import opened Msgs

  /** The option guard exactly as written: three inequalities joined by `||`. */
  predicate OptionGuardAsWritten(option: string) {
    option != "Yes" || option != "No" || option != "Abstain"
  }

  /** No string equals two different spellings at once, so the guard as
      written holds of every string. */
  lemma OptionGuardIsTautology(option: string)
    ensures OptionGuardAsWritten(option)
  {
  }

  /** Vote validation as written: the same chain as `ValidateVote`, but with
      the `||` guard on the option. */
  function ValidateVoteAsWritten(msg: VoteMsg): (r: Outcome<GovError>)
    ensures r != Pass
    ensures |msg.voter| > 0 && msg.proposalID > 0 ==> r == Fail(InvalidOption(msg.option))
  {
    if |msg.voter| == 0 then Fail(UnrecognizedAddress)
    else if msg.proposalID <= 0 then Fail(InvalidProposalID)
    else if OptionGuardAsWritten(msg.option) then Fail(InvalidOption(msg.option))
    else assert false; Pass
  }

  /** A well-formed `Yes` vote on proposal 1 is rejected as written and
      accepted by the corrected check. */
  lemma YesVoteRejectedAsWritten()
    ensures ValidateVoteAsWritten(VoteMsg(1, "Yes", [1])) == Fail(InvalidOption("Yes"))
    ensures ValidateVote(VoteMsg(1, "Yes", [1])) == Pass
  {
  }

  /** The tally update as written: a method on a value receiver, so the
      caller's proposal is the one it passed in, whichever branch the switch
      takes (or the panic for any other string). */
  function UpdateTallyAsWritten<C>(p: Proposal<C>, option: string, amount: Int64)
    : (callerSees: Result<Proposal<C>, TallyPanic>)
    ensures callerSees.Ok? <==> ParseOption(option).Some?
    ensures callerSees.Ok? ==> callerSees.value == p
  {
    if option == "Yes" || option == "No" || option == "Abstain" then Ok(p)
    else Err(UnknownOption)
  }

  /** A weight-1 `Yes` vote on a fresh proposal is lost as written and
      counted by the corrected update. */
  lemma VoteLostThroughValueReceiver(title: string, description: string, submitter: Address,
                                     blockHeight: Int64, votingWindow: Uint64, deposit: bool)
    ensures var p := NewProposal(title, description, submitter, blockHeight, votingWindow, deposit);
      && UpdateTallyAsWritten(p, "Yes", 1).value.yesVotes == 0
      && UpdateTallyByName(p, "Yes", 1).value.yesVotes == 1
  {
  }
}
