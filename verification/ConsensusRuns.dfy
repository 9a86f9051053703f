/**
 Whole runs of one node, whatever inputs it is handed: lock justification, step
 discipline, and the majorities a vote set reports.
 */
module ConsensusRuns {
  import opened Basics
  import opened Validators
  import opened VoteSets
  import opened ConsensusRules
  import opened ConsensusInvariant
  import opened ConsensusSteps

  ghost predicate NodeStep(p: Params, s: RoundState, s': RoundState) {
    exists e: Env, i: Input :: Handles(p, s, s', e, i)
  }

  ghost predicate Handles(p: Params, s: RoundState, s': RoundState, e: Env, i: Input) {
    Deliverable(s, i) && s' == Handle(p, e, s, i)
  }

  ghost predicate IsNodeRun(p: Params, run: seq<RoundState>) {
    && ParamsOk(p) && run != [] && run[0] == Start(p)
    && forall k :: 0 <= k < |run| - 1 ==> NodeStep(p, run[k], run[k + 1])
  }

  lemma NodeStepOk(p: Params, s: RoundState, s': RoundState)
    requires NodeOk(p, s) && NodeStep(p, s, s')
    ensures NodeOk(p, s') && Evolves(s, s')
  {
    hide NodeOk; hide Evolves;
    var e: Env, i: Input :| Handles(p, s, s', e, i);
    HandleOk(p, e, s, i);
    hide Handle;
  }

  lemma {:induction false} NodeRunOk(p: Params, run: seq<RoundState>, k: nat)
    requires IsNodeRun(p, run) && k < |run|
    ensures NodeOk(p, run[k])
  {
    hide NodeOk; hide Evolves; hide NodeStep; hide Start;
    if k == 0 {
      StartOk(p);
    } else {
      NodeRunOk(p, run, k - 1);
      assert NodeStep(p, run[k - 1], run[k - 1 + 1]);
      NodeStepOk(p, run[k - 1], run[k]);
    }
  }

  /** A state some run of the node ends in. */
  ghost predicate Reachable(p: Params, s: RoundState) {
    exists run: seq<RoundState> :: run != [] && IsNodeRun(p, run) && run[|run| - 1] == s
  }

  lemma StartReachable(p: Params)
    requires ParamsOk(p)
    ensures Reachable(p, Start(p))
  {
    hide ParamsOk; hide Start;
    var run := [Start(p)];
    assert IsNodeRun(p, run) && run[|run| - 1] == Start(p);
  }

  lemma ReachesOn(p: Params, s: RoundState, e: Env, i: Input)
    requires Reachable(p, s) && Deliverable(s, i)
    ensures Reachable(p, Handle(p, e, s, i))
  {
    hide Handle; hide ParamsOk; hide Start; hide Deliverable;
    var run: seq<RoundState> :| run != [] && IsNodeRun(p, run) && run[|run| - 1] == s;
    var s' := Handle(p, e, s, i);
    var run' := run + [s'];
    assert NodeStep(p, s, s') by { assert Handles(p, s, s', e, i); }
    hide NodeStep;
    forall k | 0 <= k < |run'| - 1 ensures NodeStep(p, run'[k], run'[k + 1]) {
      if k < |run| - 1 { assert NodeStep(p, run[k], run[k + 1]); }
    }
    assert IsNodeRun(p, run') && run'[|run'| - 1] == s';
  }

  lemma ReachableOk(p: Params, s: RoundState)
    requires Reachable(p, s)
    ensures NodeOk(p, s)
  {
    hide IsNodeRun; hide NodeOk;
    var run: seq<RoundState> :| run != [] && IsNodeRun(p, run) && run[|run| - 1] == s;
    NodeRunOk(p, run, |run| - 1);
  }

  lemma {:induction false} NodeRunEvolves(p: Params, run: seq<RoundState>, j: nat, k: nat)
    requires IsNodeRun(p, run) && j <= k < |run|
    ensures Evolves(run[j], run[k])
    decreases k - j
  {
    hide NodeOk; hide Evolves; hide NodeStep; hide Start;
    if j == k {
      EvolvesRefl(run[j]);
    } else {
      NodeRunEvolves(p, run, j, k - 1);
      NodeRunOk(p, run, k - 1);
      assert NodeStep(p, run[k - 1], run[k - 1 + 1]);
      NodeStepOk(p, run[k - 1], run[k]);
      EvolvesTrans(run[j], run[k - 1], run[k]);
    }
  }

  /**
   Lock justification: in every reachable state a block is locked iff the locked
   round is not -1, that round is not above the current one, and the node has
   seen +2/3 prevotes for the block in it; likewise for the valid block.
   */
  lemma LockIsJustified(p: Params, run: seq<RoundState>, k: nat)
    requires IsNodeRun(p, run) && k < |run|
    ensures var s := run[k];
            && (s.lockedBlock.Some? <==> s.lockedRound != -1) && s.lockedRound <= s.round
            && (s.lockedBlock.Some? ==> SawPolka(p, s, s.lockedRound, s.lockedBlock.value))
            && (s.validBlock.Some? <==> s.validRound != -1) && s.validRound <= s.round
            && (s.validBlock.Some? ==> SawPolka(p, s, s.validRound, s.validBlock.value))
  {
    hide IsNodeRun;
    NodeRunOk(p, run, k);
    JustifiedIsSeen(p, run[k]);
    hide NodeOk; hide SawPolka;
  }

  /** More than two thirds of the height's validators prevoted for the block in that round, and the node has the votes. */
  ghost predicate SawPolka(p: Params, s: RoundState, r: int, hash: Hash) {
    exists b: BlockID :: b.hash == Some(hash) && Quorum(p.valsAfter(s.chain), s.seen, PrevoteType, s.height, r, b)
  }

  lemma JustifiedIsSeen(p: Params, s: RoundState)
    requires NodeOk(p, s)
    ensures (s.lockedBlock.Some? <==> s.lockedRound != -1) && s.lockedRound <= s.round
    ensures (s.validBlock.Some? <==> s.validRound != -1) && s.validRound <= s.round
    ensures s.lockedBlock.Some? ==> SawPolka(p, s, s.lockedRound, s.lockedBlock.value)
    ensures s.validBlock.Some? ==> SawPolka(p, s, s.validRound, s.validBlock.value)
  {
    hide SentOk; hide DecidedBacked; hide PanicKnown; hide TimeoutsOk; hide VotesOk; hide Quorum;
    if s.lockedBlock.Some? { MajorityIsQuorum(s.votes, s.seen, s.lockedRound, PrevoteType); }
    if s.validBlock.Some? { MajorityIsQuorum(s.votes, s.seen, s.validRound, PrevoteType); }
  }

  /**
   Between any two moments of a run at one height, a lock that was given up or
   moved was overridden by a polka of a round strictly above it.
   */
  lemma LockChangesOnNewerPolka(p: Params, run: seq<RoundState>, j: nat, k: nat)
    requires IsNodeRun(p, run) && j <= k < |run| && run[j].height == run[k].height
    requires run[j].lockedBlock.Some?
    requires run[k].lockedBlock != run[j].lockedBlock || run[k].lockedRound != run[j].lockedRound
    ensures exists r: int, b: BlockID ::
              && run[j].lockedRound < r <= run[k].round
              && Quorum(p.valsAfter(run[k].chain), run[k].seen, PrevoteType, run[k].height, r, b)
              && (run[k].lockedBlock != run[j].lockedBlock ==> b.hash != run[j].lockedBlock)
  {
    hide IsNodeRun;
    NodeRunEvolves(p, run, j, k);
    NodeRunOk(p, run, k);
    var s' := run[k];
    assert VotesOk(s'.votes, s'.seen) && Shape(p, s');
    hide NodeOk; hide VotesOk;
    var r: int, b: BlockID :| Overrides(run[j], s', r, b);
    MajorityIsQuorum(s'.votes, s'.seen, r, PrevoteType);
  }

  /**
   Step discipline: (Height, Round, Step) never goes back, decisions and votes
   are never forgotten, and the node asks for at most one prevote and one
   precommit per height and round.
   */
  lemma StepsInOrder(p: Params, run: seq<RoundState>, j: nat, k: nat)
    requires IsNodeRun(p, run) && j <= k < |run|
    ensures Forward(run[j], run[k]) && run[j].chain <= run[k].chain && run[j].sent <= run[k].sent
    ensures forall x, y :: 0 <= x < y < |run[k].sent| ==> !SameSlot(run[k].sent[x].vote, run[k].sent[y].vote)
  {
    hide IsNodeRun;
    NodeRunEvolves(p, run, j, k);
    NodeRunOk(p, run, k);
    hide Forward; hide MajoritiesStay; hide LockKept;
    assert SentOk(p, run[k]);
  }

  /** A precommit for a block rests on a polka of its own round, seen before signing. */
  lemma PrecommitsRestOnPolka(p: Params, run: seq<RoundState>, k: nat, x: Signed)
    requires IsNodeRun(p, run) && k < |run| && x in run[k].sent
    requires x.vote.kind.PrecommitType? && x.vote.block.hash.Some?
    ensures Quorum(ValsAt(p, run[k].chain, x.vote.height), x.basis, PrevoteType, x.vote.height, x.vote.round, x.vote.block)
    ensures x.basis <= run[k].seen
  {
    hide IsNodeRun; hide Quorum;
    NodeRunOk(p, run, k);
    assert SentPlaced(p, run[k]) && SentBacked(p, run[k]);
    assert Backed(p, run[k].chain, x);
  }
}
