/** What repeated tally updates add up to: a proposal's counters after a
    sequence of weighted ballots are the per-option sums of the weights
    (in `int64` arithmetic), and the order of the updates does not matter. */
module Tallying {
  import opened GoInts
  import opened SimpleGovernance

  /** One call of the tally update: an option and the weight it carries. */
  datatype Ballot = Ballot(option: VoteOption, weight: Int64)

  /** The proposal after applying the ballots in order, one tally update each. */
  function ApplyBallots<C>(p: Proposal<C>, bs: seq<Ballot>): Proposal<C>
    decreases |bs|
  {
    if |bs| == 0 then p
    else
      var last := bs[|bs| - 1];
      UpdateTally(ApplyBallots(p, bs[..|bs| - 1]), last.option, last.weight)
  }

  /** The mathematical sum of the weights of the ballots cast for `o`. */
  function WeightFor(bs: seq<Ballot>, o: VoteOption): int
    decreases |bs|
  {
    if |bs| == 0 then 0
    else
      var last := bs[|bs| - 1];
      WeightFor(bs[..|bs| - 1], o) + (if last.option == o then last.weight else 0)
  }

  /** One update moves a counter by the ballot's weight when the ballot is
      for that counter's option, and by nothing otherwise. */
  lemma StepCounter<C>(q: Proposal<C>, b: Ballot, o: VoteOption)
    ensures Counter(UpdateTally(q, b.option, b.weight), o)
         == Wrap(Counter(q, o) + (if b.option == o then b.weight else 0))
  {
  }

  /** Each counter ends at its start plus the weight cast for its option,
      wrapped once to `int64`; the non-tally fields never change. */
  lemma {:induction false} ApplyBallotsTally<C>(p: Proposal<C>, bs: seq<Ballot>)
    ensures SameExceptTally(p, ApplyBallots(p, bs))
    ensures forall o :: Counter(ApplyBallots(p, bs), o) == Wrap(Counter(p, o) + WeightFor(bs, o))
    decreases |bs|
  {
    if |bs| > 0 {
      var init, last := bs[..|bs| - 1], bs[|bs| - 1];
      var q := ApplyBallots(p, init);
      ApplyBallotsTally(p, init);
      forall o ensures Counter(ApplyBallots(p, bs), o) == Wrap(Counter(p, o) + WeightFor(bs, o)) {
        var d := if last.option == o then last.weight else 0;
        var before := Counter(p, o) + WeightFor(init, o);
        assert ApplyBallots(p, bs) == UpdateTally(q, last.option, last.weight);
        StepCounter(q, last, o);
        assert Counter(q, o) == Wrap(before);
        WrapAddWrap(before, d);
        assert WeightFor(bs, o) == WeightFor(init, o) + d;
        assert Counter(p, o) + WeightFor(bs, o) == before + d;
      }
    }
  }

  /** Starting from a freshly constructed proposal, each counter is the
      weight cast for its option, exactly so when that sum fits in `int64`;
      the proposal stays open. */
  lemma FreshProposalTally<C>(title: string, description: string, submitter: Address,
                              blockHeight: Int64, votingWindow: Uint64, deposit: C,
                              bs: seq<Ballot>, o: VoteOption)
    ensures var q := ApplyBallots(NewProposal(title, description, submitter, blockHeight, votingWindow, deposit), bs);
      && q.state == Open
      && Counter(q, o) == Wrap(WeightFor(bs, o))
      && (IsInt64(WeightFor(bs, o)) ==> Counter(q, o) == WeightFor(bs, o))
  {
    var p := NewProposal(title, description, submitter, blockHeight, votingWindow, deposit);
    ApplyBallotsTally(p, bs);
    assert Counter(p, o) + WeightFor(bs, o) == WeightFor(bs, o);
  }

  /** A proposal is determined by its non-tally fields and its three counters. */
  lemma TalliesDetermine<C>(p: Proposal<C>, q: Proposal<C>)
    requires SameExceptTally(p, q)
    requires forall o :: Counter(p, o) == Counter(q, o)
    ensures p == q
  {
    assert p.yesVotes == Counter(p, Yes) && q.yesVotes == Counter(q, Yes);
    assert p.noVotes == Counter(p, No) && q.noVotes == Counter(q, No);
    assert p.abstainVotes == Counter(p, Abstain) && q.abstainVotes == Counter(q, Abstain);
  }

  /** Two updates of the same counter add up, wrapped once. */
  lemma SameCounterTwice<C>(p: Proposal<C>, o: VoteOption, a1: Int64, a2: Int64)
    ensures Counter(UpdateTally(UpdateTally(p, o, a1), o, a2), o) == Wrap(Counter(p, o) + a1 + a2)
  {
    var p1 := UpdateTally(p, o, a1);
    assert Counter(p1, o) == Wrap(Counter(p, o) + a1);
    WrapAddWrap(Counter(p, o) + a1, a2);
  }

  /** A counter that at most one of two updates touches ends the same in
      either order. */
  lemma OneSidedCommutes<C>(p: Proposal<C>, o1: VoteOption, a1: Int64, o2: VoteOption, a2: Int64,
                            o: VoteOption)
    requires o != o2
    ensures Counter(UpdateTally(UpdateTally(p, o1, a1), o2, a2), o)
         == Counter(UpdateTally(UpdateTally(p, o2, a2), o1, a1), o)
  {
    var p1, p2 := UpdateTally(p, o1, a1), UpdateTally(p, o2, a2);
    assert Counter(p2, o) == Counter(p, o);
    assert Counter(UpdateTally(p1, o2, a2), o) == Counter(p1, o);
  }

  /** Each counter is the same whichever of two updates runs first. */
  lemma CounterCommutes<C>(p: Proposal<C>, o1: VoteOption, a1: Int64, o2: VoteOption, a2: Int64,
                           o: VoteOption)
    ensures Counter(UpdateTally(UpdateTally(p, o1, a1), o2, a2), o)
         == Counter(UpdateTally(UpdateTally(p, o2, a2), o1, a1), o)
  {
    if o == o1 && o == o2 {
      SameCounterTwice(p, o, a1, a2);
      SameCounterTwice(p, o, a2, a1);
      assert Counter(p, o) + a1 + a2 == Counter(p, o) + a2 + a1;
    } else if o != o2 {
      OneSidedCommutes(p, o1, a1, o2, a2, o);
    } else {
      OneSidedCommutes(p, o2, a2, o1, a1, o);
    }
  }

  /** Two tally updates commute, so the outcome is independent of the order
      in which votes are processed. */
  lemma UpdateTallyCommutes<C>(p: Proposal<C>, o1: VoteOption, a1: Int64, o2: VoteOption, a2: Int64)
    ensures UpdateTally(UpdateTally(p, o1, a1), o2, a2) == UpdateTally(UpdateTally(p, o2, a2), o1, a1)
  {
    var l := UpdateTally(UpdateTally(p, o1, a1), o2, a2);
    var r := UpdateTally(UpdateTally(p, o2, a2), o1, a1);
    forall o ensures Counter(l, o) == Counter(r, o) {
      CounterCommutes(p, o1, a1, o2, a2, o);
    }
    TalliesDetermine(l, r);
  }
}
