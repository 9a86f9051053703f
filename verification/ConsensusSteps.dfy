/** Every step of the consensus state machine keeps the node invariant and moves the node forward. */
module ConsensusSteps {
  import opened Basics
  import opened Validators
  import opened VoteSets
  import opened ConsensusRules
  import opened ConsensusInvariant

  // --- updates that leave lock, valid block and signed votes alone ----------

  ghost predicate SameCore(s: RoundState, s': RoundState) {
    && s'.chain == s.chain && s'.height == s.height && s'.sent == s.sent
    && s'.lockedRound == s.lockedRound && s'.lockedBlock == s.lockedBlock && s'.lockedParts == s.lockedParts
    && s'.validRound == s.validRound && s'.validBlock == s.validBlock && s'.validParts == s.validParts
    && s'.panic == s.panic
  }

  lemma BoundGrows(p: Params, s: RoundState, s': RoundState, x: Vote)
    requires Bound(p, s, x) && s.seen <= s'.seen && s.round <= s'.round && s'.chain == s.chain && s'.height == s.height
    requires s'.lockedBlock == s.lockedBlock && s.lockedRound <= s'.lockedRound
    ensures Bound(p, s', x)
  {
    hide Released;
    if !(s.lockedBlock == x.block.hash && x.round <= s.lockedRound) {
      ReleasedGrows(p.valsAfter(s.chain), s.seen, s'.seen, s.height, x.round, s.round, s'.round, x.block.hash);
    }
  }

  lemma SentOkGrows(p: Params, s: RoundState, s': RoundState)
    requires SentOk(p, s) && SameCore(s, s') && s.seen <= s'.seen && Forward(s, s')
    ensures SentOk(p, s')
  {
    hide Released; hide Backed; hide Bound; hide HasAddress; hide ValsAt;
    forall x | x in s'.sent && x.vote.kind.PrecommitType? && x.vote.height == s'.height && x.vote.block.hash.Some?
      ensures Bound(p, s', x.vote)
    {
      BoundGrows(p, s, s', x.vote);
    }
  }

  lemma DecidedGrows(p: Params, chain: seq<Hash>, v1: set<Vote>, v2: set<Vote>)
    requires DecidedBacked(p, chain, v1) && v1 <= v2
    ensures DecidedBacked(p, chain, v2)
  {
    hide Quorum;
    forall i | 0 <= i < |chain|
      ensures Committed(p.valsAfter(chain[..i]), v2, p.initialHeight + i, chain[i])
    {
      var vals, h := p.valsAfter(chain[..i]), p.initialHeight + i;
      assert Committed(vals, v1, h, chain[i]);
      var r: int, b: BlockID :| b.hash == Some(chain[i]) && Quorum(vals, v1, PrecommitType, h, r, b);
      QuorumGrows(vals, v1, v2, PrecommitType, h, r, b);
    }
  }

  lemma PanicGrows(p: Params, s: RoundState, s': RoundState)
    requires s.panic.None? && s'.panic.None?
    ensures PanicKnown(p, s')
  {
  }

  lemma PolkaStays(s: RoundState, s': RoundState, r: int, hash: Option<Hash>)
    requires HasPolka(s, r, hash) && MajoritiesStay(s.votes, s'.votes)
    ensures HasPolka(s', r, hash)
  {
    assert TwoThirdsMajority(VoteSetAt(s.votes, r, PrevoteType)).Some?;
  }

  /** Anything that only moves the place forward, counts more votes or edits proposal fields and timeouts. */
  lemma Keeps(p: Params, s: RoundState, s': RoundState)
    requires NodeOk(p, s) && SameCore(s, s') && s.seen <= s'.seen && Forward(s, s')
    requires s.panic.None?
    requires Shape(p, s') && VotesOk(s'.votes, s'.seen) && MajoritiesStay(s.votes, s'.votes) && TimeoutsOk(s')
    ensures NodeOk(p, s') && Evolves(s, s')
  {
    hide SentOk; hide DecidedBacked; hide PanicKnown; hide VotesOk; hide MajoritiesStay; hide HasPolka; hide TimeoutsOk;
    SentOkGrows(p, s, s');
    DecidedGrows(p, s.chain, s.seen, s'.seen);
    PanicGrows(p, s, s');
    if s.lockedBlock.Some? { PolkaStays(s, s', s.lockedRound, s.lockedBlock); }
    if s.validBlock.Some? { PolkaStays(s, s', s.validRound, s.validBlock); }
  }

  /** The same, when the votes are untouched. */
  lemma KeepsPlain(p: Params, s: RoundState, s': RoundState)
    requires NodeOk(p, s) && s.panic.None? && SameCore(s, s') && Forward(s, s')
    requires s'.votes == s.votes && s'.seen == s.seen && s'.lastCommit == s.lastCommit
    requires s'.round <= s.votes.maxRound <= s'.round + 1 && TimeoutsOk(s')
    ensures NodeOk(p, s') && Evolves(s, s')
  {
    hide SentOk; hide DecidedBacked; hide PanicKnown; hide HasPolka; hide TimeoutsOk; hide VoteSetOk;
    Keeps(p, s, s');
  }

  // --- votes of the height -------------------------------------------------

  lemma NewVoteSetOk(hv: HeightVotes, seen: set<Vote>, r: int, k: VoteType)
    requires Distinct(hv.vals)
    ensures VoteSetOk(hv, seen, r, k, NewVoteSet(hv.height, r, k, hv.vals))
  {
    PowerOfNobody(hv.vals);
    assert NewVoteSet(hv.height, r, k, hv.vals).votes.Keys == {};
  }

  lemma NewHeightVotesOk(height: int, vals: ValidatorSet, seen: set<Vote>)
    requires Distinct(vals)
    ensures VotesOk(NewHeightVotes(height, vals), seen)
  {
    var hv := NewHeightVotes(height, vals);
    forall r: int, k: VoteType | VoteSetAt(hv, r, k).Some?
      ensures VoteSetOk(hv, seen, r, k, VoteSetAt(hv, r, k).value)
    {
      NewVoteSetOk(hv, seen, r, k);
    }
  }

  lemma TrackRoundsOk(hv: HeightVotes, seen: set<Vote>, round: int)
    requires Distinct(hv.vals) && VotesOk(hv, seen)
    ensures VotesOk(TrackRounds(hv, round), seen) && MajoritiesStay(hv, TrackRounds(hv, round))
  {
    hide Valid;
    var hv' := TrackRounds(hv, round);
    forall r: int, k: VoteType | VoteSetAt(hv', r, k).Some?
      ensures VoteSetOk(hv', seen, r, k, VoteSetAt(hv', r, k).value)
    {
      if r in hv.rounds {
        assert VoteSetOk(hv, seen, r, k, VoteSetAt(hv, r, k).value);
      } else {
        NewVoteSetOk(hv', seen, r, k);
      }
    }
  }

  lemma PutVoteSetOk(hv: HeightVotes, seen: set<Vote>, seen': set<Vote>, round: int, kind: VoteType, vs: VoteSet)
    requires VotesOk(hv, seen) && seen <= seen' && round in hv.rounds
    requires VoteSetOk(hv, seen', round, kind, vs) && Grows(VoteSetAt(hv, round, kind).value, vs)
    ensures var hv' := PutVoteSet(hv, round, kind, vs);
            && VotesOk(hv', seen') && MajoritiesStay(hv, hv')
            && VoteSetAt(hv', round, kind) == Some(vs)
            && hv'.height == hv.height && hv'.vals == hv.vals && hv'.maxRound == hv.maxRound
  {
    hide Valid;
    var hv' := PutVoteSet(hv, round, kind, vs);
    forall r: int, k: VoteType | VoteSetAt(hv', r, k).Some?
      ensures VoteSetOk(hv', seen', r, k, VoteSetAt(hv', r, k).value)
    {
      if r != round || k != kind {
        assert VoteSetAt(hv', r, k) == VoteSetAt(hv, r, k);
        assert VoteSetOk(hv, seen, r, k, VoteSetAt(hv, r, k).value);
      }
    }
  }

  lemma AddToHeightOk(hv: HeightVotes, seen: set<Vote>, v: Vote, peer: Peer, ok: bool)
    requires Distinct(hv.vals) && VotesOk(hv, seen) && v.height == hv.height
    ensures var (hv', added) := AddToHeight(hv, v, peer, ok);
            && VotesOk(hv', if added then seen + {v} else seen) && MajoritiesStay(hv, hv')
            && hv'.height == hv.height && hv'.vals == hv.vals && hv'.maxRound == hv.maxRound
            && (added ==> ok && v.round in hv'.rounds)
  {
    hide Valid; hide AddVote; hide Grows;
    var rounds := if peer in hv.catchup then hv.catchup[peer] else [];
    if v.round in hv.rounds || |rounds| < 2 {
      var hv1 := if v.round in hv.rounds then hv
                 else hv.(rounds := hv.rounds[v.round := NewRoundVotes(hv.height, v.round, hv.vals)],
                          catchup := hv.catchup[peer := rounds + [v.round]]);
      assert VotesOk(hv1, seen) && MajoritiesStay(hv, hv1) by { OpenRoundOk(hv, hv1, seen, v.round); }
      var vs := VoteSetAt(hv1, v.round, v.kind).value;
      assert VoteSetOk(hv1, seen, v.round, v.kind, vs);
      AddVoteCounts(vs, v, ok);
      var r := AddVote(vs, v, ok);
      var seen' := if r.added then seen + {v} else seen;
      assert VoteSetOk(hv1, seen', v.round, v.kind, r.voteSet) by { CountedVoteSeen(hv1, seen, vs, v, r); }
      PutVoteSetOk(hv1, seen, seen', v.round, v.kind, r.voteSet);
    }
  }

  lemma OpenRoundOk(hv: HeightVotes, hv1: HeightVotes, seen: set<Vote>, round: int)
    requires Distinct(hv.vals) && VotesOk(hv, seen)
    requires hv1.height == hv.height && hv1.vals == hv.vals
    requires hv1.rounds == if round in hv.rounds then hv.rounds
                           else hv.rounds[round := NewRoundVotes(hv.height, round, hv.vals)]
    ensures VotesOk(hv1, seen) && MajoritiesStay(hv, hv1)
  {
    hide Valid;
    forall r: int, k: VoteType | VoteSetAt(hv1, r, k).Some?
      ensures VoteSetOk(hv1, seen, r, k, VoteSetAt(hv1, r, k).value)
    {
      if r in hv.rounds {
        assert VoteSetOk(hv, seen, r, k, VoteSetAt(hv, r, k).value);
      } else {
        NewVoteSetOk(hv1, seen, r, k);
      }
    }
  }

  lemma CountedVoteSeen(hv: HeightVotes, seen: set<Vote>, vs: VoteSet, v: Vote, r: AddResult)
    requires VoteSetOk(hv, seen, v.round, v.kind, vs) && v.height == hv.height
    requires Valid(r.voteSet) && Grows(vs, r.voteSet)
    requires forall c :: VotersFor(r.voteSet, c) == VotersFor(vs, c) + (if r.added && c == v.block then {v.address} else {})
    ensures VoteSetOk(hv, if r.added then seen + {v} else seen, v.round, v.kind, r.voteSet)
  {
    hide Valid; hide VotersFor;
    var seen' := if r.added then seen + {v} else seen;
    forall b: BlockID, a: Address | a in VotersFor(r.voteSet, b)
      ensures Vote(v.kind, hv.height, v.round, a, b) in seen'
    {
      if a !in VotersFor(vs, b) {
        assert r.added && b == v.block && a == v.address;
        assert Vote(v.kind, hv.height, v.round, a, b) == v;
      }
    }
  }

  /** A majority the node holds is a quorum among the votes it has seen. */
  lemma MajorityIsQuorum(hv: HeightVotes, seen: set<Vote>, r: int, k: VoteType)
    requires VotesOk(hv, seen) && TwoThirdsMajority(VoteSetAt(hv, r, k)).Some?
    ensures Quorum(hv.vals, seen, k, hv.height, r, TwoThirdsMajority(VoteSetAt(hv, r, k)).value)
  {
    var vs := VoteSetAt(hv, r, k).value;
    assert VoteSetOk(hv, seen, r, k, vs);
    var b := vs.maj23.value;
    forall a | a in VotersFor(vs, b) ensures a in Supporters(seen, k, hv.height, r, b) {
      assert Vote(k, hv.height, r, a, b) in seen;
    }
    PowerMonotone(hv.vals, VotersFor(vs, b), Supporters(seen, k, hv.height, r, b));
  }

  // --- the lock ------------------------------------------------------------

  /** `s'` has the place, votes and history of `s` (or a later place in the same round), but another lock. */
  ghost predicate SameButLock(s: RoundState, s': RoundState) {
    && s'.chain == s.chain && s'.height == s.height && s'.sent == s.sent && s'.seen == s.seen
    && s'.votes == s.votes && s'.lastCommit == s.lastCommit && s'.timeouts == s.timeouts
    && s'.validRound == s.validRound && s'.validBlock == s.validBlock && s'.validParts == s.validParts
    && s'.panic == s.panic && s'.round == s.round && Rank(s.step) <= Rank(s'.step)
  }

  lemma PolkaReleases(p: Params, s: RoundState, r: int, b: BlockID, low: int, hash: Option<Hash>)
    requires Shape(p, s) && VotesOk(s.votes, s.seen) && TwoThirdsMajority(Prevotes(s.votes, r)) == Some(b)
    requires low < r <= s.round && b.hash != hash
    ensures Released(p.valsAfter(s.chain), s.seen, s.height, low, s.round, hash)
  {
    hide Quorum; hide VotesOk;
    MajorityIsQuorum(s.votes, s.seen, r, PrevoteType);
  }

  lemma SentOkRelocked(p: Params, s: RoundState, s': RoundState)
    requires SentOk(p, s) && SameButLock(s, s') && LockMemory(p, s')
    ensures SentOk(p, s')
  {
    hide Released; hide Backed; hide Bound; hide HasAddress; hide ValsAt; hide LockMemory;
  }

  lemma RelockedOk(p: Params, s: RoundState, s': RoundState)
    requires NodeOk(p, s) && s.panic.None? && SameButLock(s, s') && LockMemory(p, s') && LockJustified(p, s') && LockKept(s, s')
    ensures NodeOk(p, s') && Evolves(s, s')
  {
    hide SentOk; hide DecidedBacked; hide PanicKnown; hide VotesOk; hide LockMemory; hide LockKept; hide LockJustified;
    SentOkRelocked(p, s, s');
    PanicGrows(p, s, s');
  }

  /** Dropping the lock on a polka of a round above it for something else. */
  lemma UnlockOk(p: Params, s: RoundState, s': RoundState, r: int, b: BlockID)
    requires NodeOk(p, s) && s.panic.None? && SameButLock(s, s') && s.lockedBlock.Some?
    requires s'.lockedRound == -1 && s'.lockedBlock == None
    requires s.lockedRound < r <= s.round && TwoThirdsMajority(Prevotes(s.votes, r)) == Some(b)
    requires b.hash != s.lockedBlock
    ensures NodeOk(p, s') && Evolves(s, s')
  {
    hide Released; hide DecidedBacked; hide PanicKnown; hide VotesOk;
    assert Overrides(s, s', r, b);
    forall x | x in s'.sent && x.vote.kind.PrecommitType? && x.vote.height == s'.height && x.vote.block.hash.Some?
      ensures Bound(p, s', x.vote)
    {
      assert Bound(p, s, x.vote);
      if s.lockedBlock == x.vote.block.hash && x.vote.round <= s.lockedRound {
        PolkaReleases(p, s, r, b, x.vote.round, x.vote.block.hash);
      }
    }
    RelockedOk(p, s, s');
  }

  /** Locking on this round's polka, for the locked block or another one. */
  lemma LockOk(p: Params, s: RoundState, s': RoundState, b: BlockID)
    requires NodeOk(p, s) && s.panic.None? && SameButLock(s, s') && Rank(s.step) < Rank(Precommit) <= Rank(s'.step)
    requires TwoThirdsMajority(Prevotes(s.votes, s.round)) == Some(b) && b.hash.Some?
    requires s'.lockedRound == s.round && s'.lockedBlock == b.hash && p.validAfter(s.chain, b.hash.value)
    ensures NodeOk(p, s') && Evolves(s, s')
  {
    hide Released; hide DecidedBacked; hide PanicKnown; hide VotesOk;
    assert s.lockedBlock.Some? ==> Overrides(s, s', s.round, b);
    forall x | x in s'.sent && x.vote.kind.PrecommitType? && x.vote.height == s'.height && x.vote.block.hash.Some?
      ensures Bound(p, s', x.vote)
    {
      assert Bound(p, s, x.vote);
      assert Placed(x.vote, s.height, s.round, s.step);
      if s.lockedBlock == x.vote.block.hash && b.hash != x.vote.block.hash && x.vote.round <= s.lockedRound {
        PolkaReleases(p, s, s.round, b, x.vote.round, x.vote.block.hash);
      }
    }
    assert HasPolka(s', s'.lockedRound, s'.lockedBlock);
    RelockedOk(p, s, s');
  }

  // --- signing -------------------------------------------------------------

  /** No vote of this type has been signed for the node's current round. */
  ghost predicate NotYet(s: RoundState, kind: VoteType) {
    forall x :: x in s.sent ==> !(x.vote.kind == kind && x.vote.height == s.height && x.vote.round == s.round)
  }

  lemma NotYetBeforeStep(p: Params, s: RoundState, kind: VoteType)
    requires SentPlaced(p, s)
    requires Rank(s.step) < (if kind.PrevoteType? then Rank(Prevote) else Rank(Precommit))
    ensures NotYet(s, kind)
  {
    hide HasAddress; hide ValsAt;
    forall x | x in s.sent ensures !(x.vote.kind == kind && x.vote.height == s.height && x.vote.round == s.round) {
      assert Placed(x.vote, s.height, s.round, s.step);
    }
  }

  lemma ChainBeforeNow(p: Params, s: RoundState)
    requires Shape(p, s)
    ensures ChainBefore(p, s.chain, s.height) == s.chain
  {
    assert s.chain[..|s.chain|] == s.chain;
  }

  /** What signing adds: one vote of the current place, on the basis of everything seen. */
  lemma SignedOk(p: Params, s: RoundState, s': RoundState, y: Signed)
    requires NodeOk(p, s) && s' == s.(sent := s.sent + [y])
    requires y.basis == s.seen && y.vote.height == s.height && y.vote.round == s.round && y.vote.address == p.me
    requires (if y.vote.kind.PrevoteType? then Rank(Prevote) else Rank(Precommit)) <= Rank(s.step)
    requires NotYet(s, y.vote.kind) && HasAddress(p.valsAfter(s.chain), p.me)
    requires Backed(p, s.chain, y)
    requires y.vote.kind.PrevoteType? && s.lockedBlock.Some? ==> y.vote.block.hash == s.lockedBlock
    requires y.vote.kind.PrecommitType? && y.vote.block.hash.Some? ==> Bound(p, s, y.vote)
    ensures SentOk(p, s')
  {
    ChainBeforeNow(p, s);
    SignedReleased(p, s, s', y);
    hide Released; hide Backed; hide HasAddress; hide SentReleased; hide VotesOk; hide DecidedBacked; hide PanicKnown;
    forall x | x in s'.sent && x.vote.kind.PrecommitType? && x.vote.height == s'.height && x.vote.block.hash.Some?
      ensures Bound(p, s', x.vote)
    {
      assert Bound(p, s, x.vote);
    }
  }

  lemma SignedReleased(p: Params, s: RoundState, s': RoundState, y: Signed)
    requires Shape(p, s) && SentPlaced(p, s) && SentReleased(p, s) && LockMemory(p, s) && s' == s.(sent := s.sent + [y])
    requires y.basis == s.seen && y.vote.height == s.height && y.vote.round == s.round
    requires y.vote.kind.PrevoteType? && s.lockedBlock.Some? ==> y.vote.block.hash == s.lockedBlock
    ensures SentReleased(p, s')
  {
    hide Released; hide HasAddress;
    ChainBeforeNow(p, s);
    forall x, z | x in s'.sent && z in s'.sent && Departs(x.vote, z.vote)
      ensures Released(ValsAt(p, s'.chain, z.vote.height), z.basis, z.vote.height, x.vote.round, z.vote.round,
                       x.vote.block.hash)
    {
      if z == y {
        assert Bound(p, s, x.vote);
      }
    }
  }

  lemma SentGrowsOk(p: Params, s: RoundState, s': RoundState)
    requires NodeOk(p, s) && s.sent <= s'.sent && s' == s.(sent := s'.sent) && SentOk(p, s')
    ensures NodeOk(p, s') && Evolves(s, s')
  {
    hide SentOk; hide DecidedBacked; hide VotesOk;
    hide Quorum;
  }

  // --- the steps -----------------------------------------------------------

  /** Any guard-passing call is for the node's own round, so the round consulted is the round signed. */
  ghost predicate Here(s: RoundState, height: int, round: int) {
    s.height == height ==> round <= s.round
  }

  lemma EnterPrevoteOk(p: Params, e: Env, s: RoundState, height: int, round: int)
    requires NodeOk(p, s) && Here(s, height, round)
    ensures var s' := EnterPrevote(p, e, s, height, round);
            NodeOk(p, s') && Evolves(s, s') && s'.votes == s.votes && s'.height == s.height && s'.round == s.round
  {
    var s' := EnterPrevote(p, e, s, height, round);
    if s' != s {
      var s1 := At(s, round, Prevote);
      KeepsPlain(p, s, s1);
      if s'.sent != s.sent {
        var y := Signed(Vote(PrevoteType, s.height, s.round, p.me, PrevoteChoice(p, s)), s.seen);
        assert s' == s1.(sent := s1.sent + [y]);
        NotYetBeforeStep(p, s, PrevoteType);
        assert Backed(p, s1.chain, y) by { ChainBeforeNow(p, s); }
        SignedOk(p, s1, s', y);
        SentGrowsOk(p, s1, s');
        EvolvesTrans(s, s1, s');
      } else {
        assert s' == s1;
      }
    } else {
      EvolvesRefl(s);
    }
  }

  lemma EvolvesRefl(s: RoundState)
    ensures Evolves(s, s)
  {
  }

  lemma EnterProposeOk(p: Params, e: Env, s: RoundState, height: int, round: int)
    requires NodeOk(p, s) && Here(s, height, round) && round >= 0
    ensures var s' := EnterPropose(p, e, s, height, round);
            NodeOk(p, s') && Evolves(s, s') && s'.votes == s.votes && s'.height == s.height && s'.round == s.round
  {
    assert Shape(p, s);
    hide NodeOk; hide Evolves;
    var s' := EnterPropose(p, e, s, height, round);
    if s.panic.Some? || s.height != height || round < s.round
       || (s.round == round && Rank(Propose) <= Rank(s.step)) {
      EvolvesRefl(s);
    } else {
      var s1 := At(Schedule(s, round, Propose), round, Propose);
      KeepsScheduled(p, s, s1, round, Propose);
      if IsProposalComplete(s1) {
        EnterPrevoteOk(p, e, s1, height, s1.round);
        EvolvesTrans(s, s1, s');
      }
    }
  }

  lemma KeepsScheduled(p: Params, s: RoundState, s': RoundState, round: int, step: Step)
    requires NodeOk(p, s) && s.panic.None? && SameCore(s, s') && Forward(s, s')
    requires s'.votes == s.votes && s'.seen == s.seen && s'.lastCommit == s.lastCommit
    requires s'.round <= s.votes.maxRound <= s'.round + 1 && 0 <= round <= s'.round
    requires s'.timeouts == s.timeouts + {Timeout(s.height, round, step)}
    requires step in {NewHeight, NewRound, Propose, PrevoteWait, PrecommitWait}
    requires step in {NewHeight, NewRound} ==> round == 0
    ensures NodeOk(p, s') && Evolves(s, s')
  {
    assert TimeoutsOk(s') by { assert TimeoutsOk(s); }
    KeepsPlain(p, s, s');
  }

  lemma EnterPrevoteWaitOk(p: Params, s: RoundState, height: int, round: int)
    requires NodeOk(p, s) && Here(s, height, round) && HasTwoThirdsAny(Prevotes(s.votes, round))
    ensures var s' := EnterPrevoteWait(s, height, round);
            NodeOk(p, s') && Evolves(s, s') && s'.votes == s.votes && s'.height == s.height && s'.round == s.round
  {
    var s' := EnterPrevoteWait(s, height, round);
    if s' != s {
      KeepsScheduled(p, s, s', round, PrevoteWait);
    } else {
      EvolvesRefl(s);
    }
  }

  lemma EnterPrecommitWaitOk(p: Params, s: RoundState, height: int, round: int)
    requires NodeOk(p, s) && Here(s, height, round) && HasTwoThirdsAny(Precommits(s.votes, round))
    ensures var s' := EnterPrecommitWait(s, height, round);
            NodeOk(p, s') && Evolves(s, s') && s'.votes == s.votes && s'.height == s.height && s'.round == s.round
  {
    var s' := EnterPrecommitWait(s, height, round);
    if s' != s {
      KeepsScheduled(p, s, s', round, PrecommitWait);
    } else {
      EvolvesRefl(s);
    }
  }

  lemma HaltOk(p: Params, s: RoundState, why: Panic)
    requires NodeOk(p, s) && s.panic.None? && PanicKnown(p, Halt(s, why))
    ensures NodeOk(p, Halt(s, why)) && Evolves(s, Halt(s, why))
  {
    hide Released; hide Quorum; hide VotesOk; hide DecidedBacked;
  }

  /** The round of a polka at or below the tracked maximum is found by the backward search. */
  lemma {:induction false} PolRoundFinds(hv: HeightVotes, from: int, r: int)
    requires 0 <= r <= from && HasTwoThirdsMajority(Prevotes(hv, r))
    ensures PolRound(hv, from) >= r
  {
    if !HasTwoThirdsMajority(Prevotes(hv, from)) { PolRoundFinds(hv, from - 1, r); }
  }

  /** Signing the precommit of the current round once the precommit step has been entered. */
  lemma SignPrecommitOk(p: Params, e: Env, s: RoundState, b: BlockID)
    requires NodeOk(p, s) && Rank(Precommit) <= Rank(s.step) && NotYet(s, PrecommitType)
    requires b.hash.Some? ==> s.lockedBlock == b.hash && s.lockedRound == s.round
                              && TwoThirdsMajority(Prevotes(s.votes, s.round)) == Some(b)
    ensures var s' := SignAddVote(p, e, s, PrecommitType, b); NodeOk(p, s') && Evolves(s, s')
  {
    hide Released; hide VotesOk; hide DecidedBacked; hide PanicKnown;
    var s' := SignAddVote(p, e, s, PrecommitType, b);
    if s' != s {
      var y := Signed(Vote(PrecommitType, s.height, s.round, p.me, b), s.seen);
      ChainBeforeNow(p, s);
      if b.hash.Some? { MajorityIsQuorum(s.votes, s.seen, s.round, PrevoteType); }
      SignedOk(p, s, s', y);
      SentGrowsOk(p, s, s');
    } else {
      EvolvesRefl(s);
    }
  }

  /** Signing does not look at the step, so it may as well come after the deferred step update. */
  lemma SignCommutes(p: Params, e: Env, s: RoundState, kind: VoteType, b: BlockID, step: Step)
    ensures At(SignAddVote(p, e, s, kind, b), s.round, step) == SignAddVote(p, e, At(s, s.round, step), kind, b)
  {
  }

  lemma LockThenSignOk(p: Params, e: Env, s: RoundState, s1: RoundState, b: BlockID)
    requires NodeOk(p, s) && NodeOk(p, s1) && Evolves(s, s1) && Rank(s.step) < Rank(Precommit)
    requires s1.step == Precommit && s1.sent == s.sent && s1.height == s.height && s1.round == s.round
    requires b.hash.Some? ==> s1.lockedBlock == b.hash && s1.lockedRound == s1.round
                              && TwoThirdsMajority(Prevotes(s1.votes, s1.round)) == Some(b)
    ensures var s' := SignAddVote(p, e, s1, PrecommitType, b); NodeOk(p, s') && Evolves(s, s')
  {
    assert NotYet(s1, PrecommitType) by { NotYetBeforeStep(p, s, PrecommitType); }
    hide NodeOk; hide Evolves;
    SignPrecommitOk(p, e, s1, b);
    EvolvesTrans(s, s1, SignAddVote(p, e, s1, PrecommitType, b));
  }

  lemma EnterPrecommitOk(p: Params, e: Env, s: RoundState, height: int, round: int)
    requires NodeOk(p, s) && Here(s, height, round)
    ensures var s' := EnterPrecommit(p, e, s, height, round);
            NodeOk(p, s') && Evolves(s, s') && s'.votes == s.votes && s'.height == s.height && s'.round == s.round
  {
    if s.panic.Some? || s.height != height || round < s.round
       || (s.round == round && Rank(Precommit) <= Rank(s.step)) {
      EvolvesRefl(s);
    } else {
      PrecommitNowOk(p, e, s);
    }
  }

  lemma PrecommitNowOk(p: Params, e: Env, s: RoundState)
    requires NodeOk(p, s) && s.panic.None? && Rank(s.step) < Rank(Precommit)
    ensures var s' := At(DoPrecommit(p, e, s, s.round), s.round, Precommit);
            NodeOk(p, s') && Evolves(s, s') && s'.votes == s.votes && s'.height == s.height && s'.round == s.round
  {
    var s0 := At(s, s.round, Precommit);
    KeepsPlain(p, s, s0);
    var polka := TwoThirdsMajority(Prevotes(s.votes, s.round));
    if polka.None? {
      SignCommutes(p, e, s, PrecommitType, NIL_ID, Precommit);
      LockThenSignOk(p, e, s, s0, NIL_ID);
    } else {
      PolRoundFinds(s.votes, s.votes.maxRound, s.round);
      PrecommitOnPolkaOk(p, e, s, s0, polka.value);
    }
  }

  lemma PrecommitOnPolkaOk(p: Params, e: Env, s: RoundState, s0: RoundState, b: BlockID)
    requires NodeOk(p, s) && s.panic.None? && Rank(s.step) < Rank(Precommit)
    requires s0 == At(s, s.round, Precommit) && NodeOk(p, s0) && Evolves(s, s0)
    requires TwoThirdsMajority(Prevotes(s.votes, s.round)) == Some(b)
    requires PolRound(s.votes, s.votes.maxRound) >= s.round
    ensures var s' := At(DoPrecommit(p, e, s, s.round), s.round, Precommit);
            NodeOk(p, s') && Evolves(s, s') && s'.votes == s.votes && s'.height == s.height && s'.round == s.round
  {
    assert s.lockedBlock.Some? ==> p.validAfter(s.chain, s.lockedBlock.value) by { assert LockJustified(p, s); }
    hide NodeOk; hide Evolves; hide PolRound; hide SignAddVote;
    if b.hash.None? || !(HashesTo(s.lockedBlock, b.hash) || HashesTo(s.proposalBlock, b.hash)) {
      PrecommitNilOnPolkaOk(p, e, s, s0, b);
    } else if HashesTo(s.lockedBlock, b.hash) {
      LockAndPrecommitOk(p, e, s, s0, s.(lockedRound := s.round), b);
    } else if p.validAfter(s.chain, s.proposalBlock.value) {
      LockAndPrecommitOk(p, e, s, s0,
        s.(lockedRound := s.round, lockedBlock := s.proposalBlock, lockedParts := s.proposalParts), b);
    } else {
      PolkaForInvalidOk(p, s, s0, b);
    }
  }

  lemma LockAndPrecommitOk(p: Params, e: Env, s: RoundState, s0: RoundState, s1: RoundState, b: BlockID)
    requires NodeOk(p, s) && s.panic.None? && Rank(s.step) < Rank(Precommit) && s0 == At(s, s.round, Precommit)
    requires TwoThirdsMajority(Prevotes(s.votes, s.round)) == Some(b) && b.hash.Some?
    requires s1 == s.(lockedRound := s.round, lockedBlock := b.hash, lockedParts := s1.lockedParts)
    requires p.validAfter(s.chain, b.hash.value)
    ensures var s' := At(SignAddVote(p, e, s1, PrecommitType, b), s.round, Precommit);
            NodeOk(p, s') && Evolves(s, s') && s'.votes == s.votes && s'.height == s.height && s'.round == s.round
  {
    hide NodeOk; hide Evolves;
    var s2 := At(s1, s.round, Precommit);
    LockOk(p, s, s2, b);
    SignCommutes(p, e, s1, PrecommitType, b, Precommit);
    LockThenSignOk(p, e, s, s2, b);
  }

  lemma PolkaForInvalidOk(p: Params, s: RoundState, s0: RoundState, b: BlockID)
    requires NodeOk(p, s) && s.panic.None? && s0 == At(s, s.round, Precommit) && NodeOk(p, s0) && Evolves(s, s0)
    requires TwoThirdsMajority(Prevotes(s.votes, s.round)) == Some(b) && b.hash.Some?
    requires !p.validAfter(s.chain, b.hash.value)
    ensures NodeOk(p, Halt(s0, PolkaForInvalidBlock)) && Evolves(s, Halt(s0, PolkaForInvalidBlock))
  {
    assert PanicKnown(p, Halt(s0, PolkaForInvalidBlock)) by {
      hide Quorum;
      MajorityIsQuorum(s.votes, s.seen, s.round, PrevoteType);
    }
    hide NodeOk; hide Evolves; hide PanicKnown;
    HaltOk(p, s0, PolkaForInvalidBlock);
    EvolvesTrans(s, s0, Halt(s0, PolkaForInvalidBlock));
  }

  lemma LockBelow(p: Params, s: RoundState)
    requires NodeOk(p, s) && Rank(s.step) < Rank(Precommit)
    ensures s.lockedRound < s.round && (s.lockedBlock.None? ==> s.lockedRound == -1)
  {
    assert LockJustified(p, s) && Shape(p, s);
  }

  lemma PrecommitNilOnPolkaOk(p: Params, e: Env, s: RoundState, s0: RoundState, b: BlockID)
    requires NodeOk(p, s) && s.panic.None? && Rank(s.step) < Rank(Precommit)
    requires s0 == At(s, s.round, Precommit) && NodeOk(p, s0) && Evolves(s, s0)
    requires TwoThirdsMajority(Prevotes(s.votes, s.round)) == Some(b)
    requires PolRound(s.votes, s.votes.maxRound) >= s.round
    requires b.hash.None? || !(HashesTo(s.lockedBlock, b.hash) || HashesTo(s.proposalBlock, b.hash))
    ensures var s' := At(DoPrecommit(p, e, s, s.round), s.round, Precommit);
            NodeOk(p, s') && Evolves(s, s') && s'.votes == s.votes && s'.height == s.height && s'.round == s.round
  {
    LockBelow(p, s);
    hide NodeOk; hide Evolves; hide PolRound; hide SignAddVote;
    var u := if b.hash.None? then if s.lockedBlock.None? then s else Unlock(s)
             else if HasHeader(s.proposalParts, b.parts) then Unlock(s)
             else Unlock(s).(proposalBlock := None, proposalParts := Some(b.parts));
    var s1 := At(u, s.round, Precommit);
    assert DoPrecommit(p, e, s, s.round) == SignAddVote(p, e, u, PrecommitType, NIL_ID);
    SignCommutes(p, e, u, PrecommitType, NIL_ID, Precommit);
    if s.lockedBlock.Some? {
      UnlockOk(p, s, s1, s.round, b);
    } else {
      KeepsUnlocked(p, s, s1);
    }
    LockThenSignOk(p, e, s, s1, NIL_ID);
  }

  lemma KeepsUnlocked(p: Params, s: RoundState, s': RoundState)
    requires NodeOk(p, s) && s.panic.None? && SameButLock(s, s') && s.lockedBlock.None? && s'.lockedBlock.None? && s'.lockedRound == -1
    ensures NodeOk(p, s') && Evolves(s, s')
  {
    hide Released; hide DecidedBacked; hide PanicKnown; hide VotesOk;
    forall x | x in s'.sent && x.vote.kind.PrecommitType? && x.vote.height == s'.height && x.vote.block.hash.Some?
      ensures Bound(p, s', x.vote)
    {
      assert Bound(p, s, x.vote);
    }
    RelockedOk(p, s, s');
  }

  ghost predicate VoteSetsKept(hv: HeightVotes, hv': HeightVotes) {
    forall r: int, k: VoteType :: VoteSetAt(hv, r, k).Some? ==> VoteSetAt(hv', r, k) == VoteSetAt(hv, r, k)
  }

  lemma RoundBounds(p: Params, s: RoundState)
    requires NodeOk(p, s)
    ensures 0 <= s.round <= s.votes.maxRound <= s.round + 1
  {
    assert Shape(p, s);
  }

  lemma EnterNewRoundOk(p: Params, e: Env, s: RoundState, height: int, round: int)
    requires NodeOk(p, s)
    ensures var s' := EnterNewRound(p, e, s, height, round);
            && NodeOk(p, s') && Evolves(s, s') && s'.height == s.height && VoteSetsKept(s.votes, s'.votes)
            && (s.panic.None? ==> Here(s', height, round))
  {
    hide NodeOk; hide EnterPropose; hide TrackRounds; hide Prevotes; hide IsProposalComplete;
    RoundBounds(p, s);
    EvolvesRefl(s);
    assert VoteSetsKept(s.votes, s.votes);
    hide Evolves; hide VoteSetsKept;
    if !(s.panic.Some? || s.height != height || round < s.round || (s.round == round && s.step != NewHeight)) {
      var s1 := At(s, round, NewRound);
      var s2 := if round == 0 then s1 else s1.(proposal := None, proposalBlock := None, proposalParts := None);
      var s3 := s2.(votes := TrackRounds(s.votes, round + 1), triggeredPrecommitWait := false);
      TrackedOk(p, s, s3, round);
      EnterTrackedRoundOk(p, e, s, s3, height, round);
    }
  }

  lemma TrackedOk(p: Params, s: RoundState, s3: RoundState, round: int)
    requires NodeOk(p, s) && s.panic.None? && SameCore(s, s3) && Forward(s, s3) && s3.round == round
    requires s3.seen == s.seen && s3.lastCommit == s.lastCommit && s3.timeouts == s.timeouts
    requires s3.votes == TrackRounds(s.votes, round + 1)
    ensures NodeOk(p, s3) && Evolves(s, s3) && VoteSetsKept(s.votes, s3.votes)
  {
    TrackRoundsOk(s.votes, s.seen, round + 1);
    assert TimeoutsOk(s3) by { assert TimeoutsOk(s); }
    assert VoteSetsKept(s.votes, s3.votes);
    hide VotesOk; hide MajoritiesStay; hide TimeoutsOk;
    Keeps(p, s, s3);
  }

  lemma EnterTrackedRoundOk(p: Params, e: Env, s: RoundState, s3: RoundState, height: int, round: int)
    requires NodeOk(p, s3) && s3.panic.None? && Evolves(s, s3) && s3.height == s.height == height && s3.round == round && s3.step == NewRound
    requires VoteSetsKept(s.votes, s3.votes)
    ensures var s' := if p.waitForTxs && round == 0 && !e.needProofBlock then
                        if p.emptyBlocksInterval then Schedule(s3, round, NewRound) else s3
                      else EnterPropose(p, e, s3, height, round);
            && NodeOk(p, s') && Evolves(s, s') && s'.height == s.height && VoteSetsKept(s.votes, s'.votes)
            && s'.round == round
  {
    assert Shape(p, s3);
    hide NodeOk; hide Evolves; hide VoteSetsKept;
    if p.waitForTxs && round == 0 && !e.needProofBlock {
      if p.emptyBlocksInterval {
        KeepsScheduled(p, s3, Schedule(s3, round, NewRound), round, NewRound);
        EvolvesTrans(s, s3, Schedule(s3, round, NewRound));
      }
    } else {
      EnterProposeOk(p, e, s3, height, round);
      EvolvesTrans(s, s3, EnterPropose(p, e, s3, height, round));
    }
  }

  // --- committing ----------------------------------------------------------

  lemma DecidedExtends(p: Params, chain: seq<Hash>, seen: set<Vote>, decided: Hash)
    requires DecidedBacked(p, chain, seen)
    requires Committed(p.valsAfter(chain), seen, p.initialHeight + |chain|, decided) && p.validAfter(chain, decided)
    ensures DecidedBacked(p, chain + [decided], seen)
  {
    hide Committed;
    var chain' := chain + [decided];
    forall i | 0 <= i < |chain'|
      ensures Committed(p.valsAfter(chain'[..i]), seen, p.initialHeight + i, chain'[i])
              && p.validAfter(chain'[..i], chain'[i])
    {
      if i < |chain| { assert chain'[..i] == chain[..i]; } else { assert chain'[..i] == chain; }
    }
  }

  lemma SentOkNextHeight(p: Params, s: RoundState, s': RoundState)
    requires Shape(p, s) && SentOk(p, s) && s'.sent == s.sent && s'.seen == s.seen
    requires |s'.chain| > |s.chain| && s.chain <= s'.chain && s'.height == p.initialHeight + |s'.chain|
    ensures SentOk(p, s')
  {
    hide Released; hide Quorum; hide HasAddress;
    forall x | x in s.sent ensures ChainBefore(p, s'.chain, x.vote.height) == ChainBefore(p, s.chain, x.vote.height) {
      assert Placed(x.vote, s.height, s.round, s.step);
      assert s'.chain[..x.vote.height - p.initialHeight] == s.chain[..x.vote.height - p.initialHeight];
    }
    assert forall x :: x in s.sent ==> x.vote.height <= s.height;
    SentReleasedSameVals(p, s, s');
  }

  lemma SentReleasedSameVals(p: Params, s: RoundState, s': RoundState)
    requires SentReleased(p, s) && s'.sent == s.sent
    requires forall x :: x in s.sent ==> ChainBefore(p, s'.chain, x.vote.height) == ChainBefore(p, s.chain, x.vote.height)
    ensures SentReleased(p, s')
  {
    hide Released; hide ChainBefore;
  }

  lemma UpdateToStateOk(p: Params, s: RoundState, b: BlockID)
    requires NodeOk(p, s) && s.panic.None? && b.hash.Some? && p.validAfter(s.chain, b.hash.value)
    requires TwoThirdsMajority(Precommits(s.votes, s.commitRound)) == Some(b)
    ensures var s' := UpdateToState(p, s, b.hash.value);
            && NodeOk(p, s') && Evolves(s, s') && s'.panic.None?
            && s'.chain == s.chain + [b.hash.value] && s'.lastCommit == Precommits(s.votes, s.commitRound)
  {
    var s' := UpdateToState(p, s, b.hash.value);
    assert Committed(p.valsAfter(s.chain), s.seen, s.height, b.hash.value) by {
      hide Quorum;
      MajorityIsQuorum(s.votes, s.seen, s.commitRound, PrecommitType);
    }
    DecidedExtends(p, s.chain, s.seen, b.hash.value);
    SentOkNextHeight(p, s, s');
    NewHeightVotesOk(s'.height, p.valsAfter(s'.chain), s.seen);
    assert TimeoutsOk(s') by { assert TimeoutsOk(s); }
    hide SentOk; hide VotesOk; hide DecidedBacked; hide TimeoutsOk;
  }

  lemma FinalizeCommitOk(p: Params, e: Env, s: RoundState, b: BlockID)
    requires NodeOk(p, s) && s.panic.None? && HashesTo(s.proposalBlock, b.hash)
    requires TwoThirdsMajority(Precommits(s.votes, s.commitRound)) == Some(b)
    ensures var s' := FinalizeCommit(p, e, s, b); NodeOk(p, s') && Evolves(s, s')
  {
    if s.step != Commit {
      EvolvesRefl(s);
    } else if !HasHeader(s.proposalParts, b.parts) {
      assert PanicKnown(p, Halt(s, CommitPartsMismatch)) by {
        hide Quorum;
        MajorityIsQuorum(s.votes, s.seen, s.commitRound, PrecommitType);
      }
      hide NodeOk; hide Evolves; hide PanicKnown;
      HaltOk(p, s, CommitPartsMismatch);
    } else if !p.validAfter(s.chain, b.hash.value) {
      assert PanicKnown(p, Halt(s, CommitOfInvalidBlock)) by {
        hide Quorum;
        MajorityIsQuorum(s.votes, s.seen, s.commitRound, PrecommitType);
      }
      hide NodeOk; hide Evolves; hide PanicKnown;
      HaltOk(p, s, CommitOfInvalidBlock);
    } else if !e.applyOk {
      EvolvesRefl(s);
    } else {
      hide NodeOk; hide Evolves; hide UpdateToState;
      UpdateToStateOk(p, s, b);
    }
  }

  lemma TryFinalizeCommitOk(p: Params, e: Env, s: RoundState)
    requires NodeOk(p, s)
    ensures var s' := TryFinalizeCommit(p, e, s); NodeOk(p, s') && Evolves(s, s')
  {
    hide NodeOk; hide FinalizeCommit;
    var majority := TwoThirdsMajority(Precommits(s.votes, s.commitRound));
    if s.panic.None? && majority.Some? && majority.value.hash.Some? && HashesTo(s.proposalBlock, majority.value.hash) {
      hide Evolves;
      FinalizeCommitOk(p, e, s, majority.value);
    } else {
      EvolvesRefl(s);
    }
  }

  lemma EnterCommitOk(p: Params, e: Env, s: RoundState, height: int, commitRound: int)
    requires NodeOk(p, s) && TwoThirdsMajority(Precommits(s.votes, commitRound)).Some?
    ensures var s' := EnterCommit(p, e, s, height, commitRound); NodeOk(p, s') && Evolves(s, s')
  {
    EvolvesRefl(s);
    hide NodeOk; hide Evolves; hide TryFinalizeCommit; hide FetchCommitted;
    if !(s.panic.Some? || s.height != height || Rank(Commit) <= Rank(s.step)) {
      var b := TwoThirdsMajority(Precommits(s.votes, commitRound)).value;
      var s1 := FetchCommitted(s, b).(step := Commit, commitRound := commitRound);
      CommitStepOk(p, s, s1, b);
      TryFinalizeCommitOk(p, e, s1);
      EvolvesTrans(s, s1, TryFinalizeCommit(p, e, s1));
    }
  }

  lemma CommitStepOk(p: Params, s: RoundState, s1: RoundState, b: BlockID)
    requires NodeOk(p, s) && s.panic.None? && s1 == FetchCommitted(s, b).(step := Commit, commitRound := s1.commitRound)
    ensures NodeOk(p, s1) && Evolves(s, s1)
  {
    assert Shape(p, s);
    assert TimeoutsOk(s1) by { assert TimeoutsOk(s); }
    hide NodeOk; hide Evolves;
    KeepsPlain(p, s, s1);
  }

  // --- messages and timeouts -----------------------------------------------

  ghost predicate SameButValid(s: RoundState, s': RoundState) {
    s' == s.(validRound := s'.validRound, validBlock := s'.validBlock, validParts := s'.validParts,
             proposal := s'.proposal, proposalBlock := s'.proposalBlock, proposalParts := s'.proposalParts)
  }

  /** Editing the proposal fields, and the valid block if this round has a polka for it. */
  lemma ValidUpdateOk(p: Params, s: RoundState, s': RoundState)
    requires NodeOk(p, s) && s.panic.None? && SameButValid(s, s')
    requires || (s'.validRound == s.validRound && s'.validBlock == s.validBlock)
             || (s'.validRound == s.round && s'.validBlock.Some? && HasPolka(s, s.round, s'.validBlock))
    ensures NodeOk(p, s') && Evolves(s, s')
  {
    hide Quorum; hide VotesOk; hide DecidedBacked;
    assert TimeoutsOk(s') by { assert TimeoutsOk(s); }
    hide TimeoutsOk;
    assert SentOk(p, s') by {
      hide Released; hide Backed; hide HasAddress; hide ValsAt;
      forall x | x in s'.sent && x.vote.kind.PrecommitType? && x.vote.height == s'.height && x.vote.block.hash.Some?
        ensures Bound(p, s', x.vote)
      {
        assert Bound(p, s, x.vote);
      }
    }
    hide SentOk;
    assert LockJustified(p, s') by { assert LockJustified(p, s); }
  }

  lemma HandleCompleteProposalOk(p: Params, e: Env, s: RoundState, height: int)
    requires NodeOk(p, s) && s.panic.None?
    ensures var s' := HandleCompleteProposal(p, e, s, height); NodeOk(p, s') && Evolves(s, s')
  {
    hide NodeOk; hide Evolves; hide EnterPrevote; hide EnterPrecommit; hide TryFinalizeCommit;
    var polka := TwoThirdsMajority(Prevotes(s.votes, s.round));
    var s1 := UpdateValidFromProposal(s);
    ValidUpdateOk(p, s, s1);
    if Rank(s1.step) <= Rank(Propose) && IsProposalComplete(s1) {
      EnterPrevoteOk(p, e, s1, height, s1.round);
      var s2 := EnterPrevote(p, e, s1, height, s1.round);
      EvolvesTrans(s, s1, s2);
      if polka.Some? {
        EnterPrecommitOk(p, e, s2, height, s2.round);
        EvolvesTrans(s, s2, EnterPrecommit(p, e, s2, height, s2.round));
      }
    } else if s1.step == Commit {
      TryFinalizeCommitOk(p, e, s1);
      EvolvesTrans(s, s1, TryFinalizeCommit(p, e, s1));
    }
  }

  lemma AddBlockPartOk(p: Params, e: Env, s: RoundState, height: int, outcome: PartOutcome)
    requires NodeOk(p, s) && s.panic.None?
    ensures var s' := AddBlockPart(p, e, s, height, outcome); NodeOk(p, s') && Evolves(s, s')
  {
    hide NodeOk; hide HandleCompleteProposal;
    if s.height != height || s.proposalParts.None? || outcome.NotAdded? || !outcome.complete {
      EvolvesRefl(s);
    } else {
      hide Evolves;
      var s1 := if outcome.decoded.Some? then s.(proposalBlock := outcome.decoded) else s;
      ValidUpdateOk(p, s, s1);
      HandleCompleteProposalOk(p, e, s1, height);
      EvolvesTrans(s, s1, HandleCompleteProposal(p, e, s1, height));
    }
  }

  lemma SetProposalOk(p: Params, s: RoundState, proposal: Proposal, ok: bool)
    requires NodeOk(p, s) && s.panic.None?
    ensures var s' := SetProposal(s, proposal, ok); NodeOk(p, s') && Evolves(s, s')
  {
    hide NodeOk; hide Evolves;
    ValidUpdateOk(p, s, SetProposal(s, proposal, ok));
  }

  lemma OnPolkaOk(p: Params, s: RoundState, round: int)
    requires NodeOk(p, s) && s.panic.None?
    ensures var s' := OnPolka(s, round);
            NodeOk(p, s') && Evolves(s, s') && s'.height == s.height && s'.round == s.round && s'.votes == s.votes
  {
    hide NodeOk; hide Evolves;
    var u := UnlockOnPolka(s, round);
    var polka := TwoThirdsMajority(Prevotes(s.votes, round));
    if u != s {
      UnlockOk(p, s, u, round, polka.value);
    } else {
      ValidUpdateOk(p, s, s);
    }
    ValidUpdateOk(p, u, OnPolka(s, round));
    EvolvesTrans(s, u, OnPolka(s, round));
  }

  lemma OnPrevoteOk(p: Params, e: Env, s: RoundState, round: int)
    requires NodeOk(p, s)
    ensures var s' := OnPrevote(p, e, s, round); NodeOk(p, s') && Evolves(s, s')
  {
    hide NodeOk; hide EnterNewRound; hide EnterPrecommit; hide EnterPrevoteWait; hide EnterPrevote;
    var prevotes := Prevotes(s.votes, round);
    EvolvesRefl(s);
    hide Evolves;
    if s.round < round && HasTwoThirdsAny(prevotes) {
      EnterNewRoundOk(p, e, s, s.height, round);
    } else if s.round == round && Rank(Prevote) <= Rank(s.step) {
      var polka := TwoThirdsMajority(prevotes);
      if polka.Some? && (IsProposalComplete(s) || polka.value.hash.None?) {
        EnterPrecommitOk(p, e, s, s.height, round);
      } else if HasTwoThirdsAny(prevotes) {
        EnterPrevoteWaitOk(p, s, s.height, round);
      }
    } else if s.proposal.Some? && 0 <= s.proposal.value.polRound == round && IsProposalComplete(s) {
      EnterPrevoteOk(p, e, s, s.height, s.round);
    }
  }

  lemma OnPrecommitOk(p: Params, e: Env, s: RoundState, round: int)
    requires NodeOk(p, s) && s.panic.None?
    ensures var s' := OnPrecommit(p, e, s, round); NodeOk(p, s') && Evolves(s, s')
  {
    hide NodeOk; hide EnterNewRound; hide EnterPrecommit; hide EnterCommit; hide EnterPrecommitWait;
    var precommits := Precommits(s.votes, round);
    var majority := TwoThirdsMajority(precommits);
    if majority.Some? {
      hide Evolves;
      OnPrecommitMajorityOk(p, e, s, round);
    } else if s.round <= round && HasTwoThirdsAny(precommits) {
      hide Evolves;
      EnterNewRoundOk(p, e, s, s.height, round);
      var s1 := EnterNewRound(p, e, s, s.height, round);
      assert VoteSetAt(s1.votes, round, PrecommitType) == VoteSetAt(s.votes, round, PrecommitType);
      EnterPrecommitWaitOk(p, s1, s.height, round);
      EvolvesTrans(s, s1, EnterPrecommitWait(s1, s.height, round));
    } else {
      EvolvesRefl(s);
    }
  }

  /** A two-thirds majority is also two thirds of any votes. */
  lemma MajorityIsAny(hv: HeightVotes, seen: set<Vote>, r: int, k: VoteType)
    requires VotesOk(hv, seen) && TwoThirdsMajority(VoteSetAt(hv, r, k)).Some?
    ensures HasTwoThirdsAny(VoteSetAt(hv, r, k))
  {
    var vs := VoteSetAt(hv, r, k).value;
    assert VoteSetOk(hv, seen, r, k, vs);
    PowerOfNobody(vs.vals);
    PowerMonotone(vs.vals, VotersFor(vs, vs.maj23.value), vs.votes.Keys);
  }

  lemma OnPrecommitMajorityOk(p: Params, e: Env, s: RoundState, round: int)
    requires NodeOk(p, s) && s.panic.None? && TwoThirdsMajority(Precommits(s.votes, round)).Some?
    ensures var s' := OnPrecommit(p, e, s, round); NodeOk(p, s') && Evolves(s, s')
  {
    MajorityIsAny(s.votes, s.seen, round, PrecommitType);
    hide NodeOk; hide EnterNewRound; hide EnterPrecommit; hide EnterCommit; hide EnterPrecommitWait; hide Evolves;
    var precommits := Precommits(s.votes, round);
    var majority := TwoThirdsMajority(precommits);
    EnterNewRoundOk(p, e, s, s.height, round);
    var s1 := EnterNewRound(p, e, s, s.height, round);
    assert VoteSetAt(s1.votes, round, PrecommitType) == VoteSetAt(s.votes, round, PrecommitType);
    EnterPrecommitOk(p, e, s1, s.height, round);
    var s2 := EnterPrecommit(p, e, s1, s.height, round);
    EvolvesTrans(s, s1, s2);
    if majority.value.hash.Some? {
      EnterCommitOk(p, e, s2, s.height, round);
      var s3 := EnterCommit(p, e, s2, s.height, round);
      EvolvesTrans(s, s2, s3);
      if p.skipTimeoutCommit && HasAll(precommits) {
        EnterNewRoundOk(p, e, s3, s3.height, 0);
        EvolvesTrans(s, s3, EnterNewRound(p, e, s3, s3.height, 0));
      }
    } else {
      EnterPrecommitWaitOk(p, s2, s.height, round);
      EvolvesTrans(s, s2, EnterPrecommitWait(s2, s.height, round));
    }
  }

  lemma LastCommitVoteOk(p: Params, e: Env, s: RoundState, v: Vote, ok: bool)
    requires NodeOk(p, s) && s.panic.None?
    ensures var s' := AddLastCommitVote(p, e, s, v, ok); NodeOk(p, s') && Evolves(s, s')
  {
    if s.step != NewHeight {
      EvolvesRefl(s);
    } else if s.lastCommit.None? {
      HaltOk(p, s, NoLastCommit);
    } else {
      var r := AddVote(s.lastCommit.value, v, ok);
      var s1 := s.(lastCommit := Some(r.voteSet), seen := if r.added then s.seen + {v} else s.seen);
      VotesOkGrows(s.votes, s.seen, s1.seen);
      Keeps(p, s, s1);
      hide NodeOk; hide Evolves; hide EnterNewRound; hide AddVote;
      if r.added && p.skipTimeoutCommit && HasAll(s1.lastCommit) {
        EnterNewRoundOk(p, e, s1, s1.height, 0);
        EvolvesTrans(s, s1, EnterNewRound(p, e, s1, s1.height, 0));
      }
    }
  }

  lemma VotesOkGrows(hv: HeightVotes, v1: set<Vote>, v2: set<Vote>)
    requires VotesOk(hv, v1) && v1 <= v2
    ensures VotesOk(hv, v2)
  {
    hide Valid;
    forall r: int, k: VoteType | VoteSetAt(hv, r, k).Some?
      ensures VoteSetOk(hv, v2, r, k, VoteSetAt(hv, r, k).value)
    {
      assert VoteSetOk(hv, v1, r, k, VoteSetAt(hv, r, k).value);
    }
  }

  lemma AddVoteMsgOk(p: Params, e: Env, s: RoundState, v: Vote, peer: Peer, ok: bool)
    requires NodeOk(p, s) && s.panic.None?
    ensures var s' := AddVoteMsg(p, e, s, v, peer, ok); NodeOk(p, s') && Evolves(s, s')
  {
    if v.height + 1 == s.height && v.kind.PrecommitType? {
      hide NodeOk; hide Evolves; hide AddLastCommitVote;
      LastCommitVoteOk(p, e, s, v, ok);
    } else if v.height != s.height {
      EvolvesRefl(s);
    } else {
      CountVoteOk(p, s, v, peer, ok);
      hide NodeOk; hide Evolves; hide OnPrevote; hide OnPrecommit; hide OnPolka; hide AddToHeight;
      var (votes', added) := AddToHeight(s.votes, v, peer, ok);
      if added {
        var s2 := s.(votes := votes', seen := s.seen + {v});
        if v.kind.PrevoteType? {
          OnPolkaOk(p, s2, v.round);
          OnPrevoteOk(p, e, OnPolka(s2, v.round), v.round);
          EvolvesTrans(s2, OnPolka(s2, v.round), OnPrevote(p, e, OnPolka(s2, v.round), v.round));
          EvolvesTrans(s, s2, OnPrevote(p, e, OnPolka(s2, v.round), v.round));
        } else {
          OnPrecommitOk(p, e, s2, v.round);
          EvolvesTrans(s, s2, OnPrecommit(p, e, s2, v.round));
        }
      }
    }
  }

  lemma CountVoteOk(p: Params, s: RoundState, v: Vote, peer: Peer, ok: bool)
    requires NodeOk(p, s) && s.panic.None? && v.height == s.height
    ensures var (votes', added) := AddToHeight(s.votes, v, peer, ok);
            var s' := s.(votes := votes', seen := if added then s.seen + {v} else s.seen);
            NodeOk(p, s') && Evolves(s, s')
  {
    hide VotesOk; hide MajoritiesStay; hide AddToHeight;
    AddToHeightOk(s.votes, s.seen, v, peer, ok);
    var (votes', added) := AddToHeight(s.votes, v, peer, ok);
    var s' := s.(votes := votes', seen := if added then s.seen + {v} else s.seen);
    Keeps(p, s, s');
  }

  lemma PeerMajorityOk(p: Params, s: RoundState, round: int, kind: VoteType, peer: Peer, b: BlockID)
    requires NodeOk(p, s) && s.panic.None?
    ensures var s' := OnPeerMajority(s, round, kind, peer, b); NodeOk(p, s') && Evolves(s, s')
  {
    var vs := VoteSetAt(s.votes, round, kind);
    if vs.None? {
      EvolvesRefl(s);
    } else {
      assert VoteSetOk(s.votes, s.seen, round, kind, vs.value);
      SetPeerMaj23Counts(vs.value, peer, b);
      PutVoteSetOk(s.votes, s.seen, s.seen, round, kind, SetPeerMaj23(vs.value, peer, b));
      Keeps(p, s, OnPeerMajority(s, round, kind, peer, b));
    }
  }

  lemma TimeoutFacts(p: Params, s: RoundState, t: Timeout)
    requires NodeOk(p, s) && t in s.timeouts
    ensures t.height == s.height ==> t.round <= s.round
    ensures t.step in {NewHeight, NewRound, Propose, PrevoteWait, PrecommitWait}
    ensures s.round >= 0
  {
    assert TimeoutsOk(s) && Shape(p, s);
  }

  lemma PrecommitWaitOverOk(p: Params, e: Env, s: RoundState, height: int, round: int)
    requires NodeOk(p, s) && Here(s, height, round)
    ensures var s' := EnterNewRound(p, e, EnterPrecommit(p, e, s, height, round), height, round + 1);
            NodeOk(p, s') && Evolves(s, s')
  {
    hide NodeOk; hide EnterNewRound; hide EnterPrecommit; hide Evolves;
    EnterPrecommitOk(p, e, s, height, round);
    var s1 := EnterPrecommit(p, e, s, height, round);
    EnterNewRoundOk(p, e, s1, height, round + 1);
    EvolvesTrans(s, s1, EnterNewRound(p, e, s1, height, round + 1));
  }

  lemma OnTimeoutOk(p: Params, e: Env, s: RoundState, t: Timeout)
    requires NodeOk(p, s) && t in s.timeouts && s.panic.None?
    ensures var s' := OnTimeout(p, e, s, t); NodeOk(p, s') && Evolves(s, s')
  {
    hide NodeOk; hide EnterNewRound; hide EnterPropose; hide EnterPrevote; hide EnterPrecommit;
    EvolvesRefl(s);
    hide Evolves;
    TimeoutFacts(p, s, t);
    if !(t.height != s.height || t.round < s.round || (t.round == s.round && Rank(t.step) < Rank(s.step))) {
      match t.step
      case NewHeight => EnterNewRoundOk(p, e, s, t.height, 0);
      case NewRound => EnterProposeOk(p, e, s, t.height, 0);
      case Propose => EnterPrevoteOk(p, e, s, t.height, t.round);
      case PrevoteWait => EnterPrecommitOk(p, e, s, t.height, t.round);
      case PrecommitWait => PrecommitWaitOverOk(p, e, s, t.height, t.round);
    }
  }

  lemma OnTxsAvailableOk(p: Params, e: Env, s: RoundState)
    requires NodeOk(p, s) && s.panic.None?
    ensures var s' := OnTxsAvailable(p, e, s); NodeOk(p, s') && Evolves(s, s')
  {
    assert Shape(p, s);
    hide NodeOk; hide EnterPropose;
    EvolvesRefl(s);
    hide Evolves;
    if s.round == 0 && s.step == NewHeight && !e.needProofBlock {
      KeepsScheduled(p, s, Schedule(s, 0, NewRound), 0, NewRound);
    } else if s.round == 0 && s.step == NewRound {
      EnterProposeOk(p, e, s, s.height, 0);
    }
  }

  /** A timeout can only fire if it was scheduled; every other input is arbitrary. */
  predicate Deliverable(s: RoundState, i: Input) {
    i.TimeoutMsg? ==> i.timeout in s.timeouts
  }

  /**
   Step discipline and lock justification in one statement: every deliverable
   input keeps the whole node invariant, moves (Height, Round, Step) forward,
   forgets no vote, and changes a lock only on a polka of a round above it.
   */
  lemma HandleOk(p: Params, e: Env, s: RoundState, i: Input)
    requires NodeOk(p, s) && Deliverable(s, i)
    ensures NodeOk(p, Handle(p, e, s, i)) && Evolves(s, Handle(p, e, s, i))
  {
    EvolvesRefl(s);
    hide NodeOk; hide Evolves;
    hide SetProposal; hide AddBlockPart; hide AddVoteMsg; hide OnTimeout; hide OnTxsAvailable; hide OnPeerMajority;
    if s.panic.None? {
      match i
      case ProposalMsg(proposal, ok) => SetProposalOk(p, s, proposal, ok);
      case BlockPartMsg(height, outcome) => AddBlockPartOk(p, e, s, height, outcome);
      case VoteMsg(v, peer, ok) => AddVoteMsgOk(p, e, s, v, peer, ok);
      case TimeoutMsg(t) => OnTimeoutOk(p, e, s, t);
      case TxsAvailable => OnTxsAvailableOk(p, e, s);
      case PeerMajority(round, kind, peer, b) => PeerMajorityOk(p, s, round, kind, peer, b);
    }
  }

  lemma StartOk(p: Params)
    requires ParamsOk(p)
    ensures NodeOk(p, Start(p))
  {
    NewHeightVotesOk(p.initialHeight, p.valsAfter([]), {});
  }

  // --- what the steps mean ---------------------------------------------------

  /** The vote a step signed, if it signed one. */
  ghost predicate Signs(s: RoundState, s': RoundState, v: Vote) {
    |s'.sent| == |s.sent| + 1 && s.sent == s'.sent[..|s.sent|] && s'.sent[|s.sent|].vote == v
  }

  /**
   Entering prevote signs at most one vote.  It is a prevote of the node's own
   place, for the locked block if there is one, and for a valid block if for
   any; the lock stays.
   */
  lemma PrevoteMeaning(p: Params, e: Env, s: RoundState, height: int, round: int)
    requires NodeOk(p, s) && Here(s, height, round)
    ensures var s' := EnterPrevote(p, e, s, height, round);
            && s'.lockedBlock == s.lockedBlock && s'.lockedRound == s.lockedRound
            && (s'.sent == s.sent ||
                exists b: BlockID :: && Signs(s, s', Vote(PrevoteType, s.height, s.round, p.me, b))
                                     && (s.lockedBlock.Some? ==> b.hash == s.lockedBlock)
                                     && (b.hash.Some? ==> p.validAfter(s.chain, b.hash.value)))
  {
    assert LockJustified(p, s);
    hide NodeOk; hide HasAddress;
    var s' := EnterPrevote(p, e, s, height, round);
    if s'.sent != s.sent {
      var b := PrevoteChoice(p, s);
      assert s'.sent[..|s.sent|] == s.sent;
      assert Signs(s, s', Vote(PrevoteType, s.height, s.round, p.me, b));
    }
  }

  /** What a step that may precommit in the node's round signs and does to the lock. */
  ghost predicate PrecommitsSoundly(p: Params, s: RoundState, s': RoundState) {
    var polka := TwoThirdsMajority(Prevotes(s.votes, s.round));
    && (s'.sent == s.sent || exists b: BlockID :: && Signs(s, s', Vote(PrecommitType, s.height, s.round, p.me, b))
                                                  && (b.hash.Some? ==> polka == Some(b) && s'.lockedBlock == b.hash
                                                                       && s'.lockedRound == s.round))
    && (polka.None? ==> s'.lockedBlock == s.lockedBlock && s'.lockedRound == s.lockedRound)
    && (s' != s && s'.panic.None? && polka.Some? && s'.lockedBlock.Some? ==> s'.lockedBlock == polka.value.hash)
  }

  lemma SignsPrecommit(p: Params, e: Env, s: RoundState, u: RoundState, b: BlockID, step: Step)
    requires u.sent == s.sent && u.height == s.height && u.round == s.round && u.panic.None?
    requires var polka := TwoThirdsMajority(Prevotes(s.votes, s.round));
             && (b.hash.Some? ==> polka == Some(b) && u.lockedBlock == b.hash && u.lockedRound == s.round)
             && (polka.None? ==> u.lockedBlock == s.lockedBlock && u.lockedRound == s.lockedRound)
             && (polka.Some? && u.lockedBlock.Some? ==> u.lockedBlock == polka.value.hash)
    ensures PrecommitsSoundly(p, s, At(SignAddVote(p, e, u, PrecommitType, b), s.round, step))
  {
    hide HasAddress; hide TwoThirdsMajority;
    var s' := At(SignAddVote(p, e, u, PrecommitType, b), s.round, step);
    if s'.sent != s.sent {
      assert s'.sent[..|s.sent|] == s.sent;
      assert Signs(s, s', Vote(PrecommitType, s.height, s.round, p.me, b));
    }
  }

  /**
   Entering precommit signs at most one vote, a precommit of the node's own
   place.  If it is for a block, that round's polka is for the block and the node
   is locked on it in that round.  A polka for anything but the locked block ends
   the lock on it, and without a polka the lock stays.
   */
  lemma PrecommitMeaning(p: Params, e: Env, s: RoundState, height: int, round: int)
    requires NodeOk(p, s) && Here(s, height, round)
    ensures PrecommitsSoundly(p, s, EnterPrecommit(p, e, s, height, round))
  {
    hide NodeOk;
    if !(s.panic.Some? || s.height != height || round < s.round
         || (s.round == round && Rank(Precommit) <= Rank(s.step))) {
      var polka := TwoThirdsMajority(Prevotes(s.votes, s.round));
      hide PolRound; hide SignAddVote; hide TwoThirdsMajority;
      var unlocked := Unlock(s);
      if polka.None? {
        SignsPrecommit(p, e, s, s, NIL_ID, Precommit);
      } else if polka.value.hash.None? {
        SignsPrecommit(p, e, s, if s.lockedBlock.None? then s else unlocked, NIL_ID, Precommit);
      } else if HashesTo(s.lockedBlock, polka.value.hash) {
        SignsPrecommit(p, e, s, s.(lockedRound := s.round), polka.value, Precommit);
      } else if HashesTo(s.proposalBlock, polka.value.hash) {
        SignsPrecommit(p, e, s, s.(lockedRound := s.round, lockedBlock := s.proposalBlock, lockedParts := s.proposalParts),
                       polka.value, Precommit);
      } else {
        SignsPrecommit(p, e, s, unlocked, NIL_ID, Precommit);
        SignsPrecommit(p, e, s, unlocked.(proposalBlock := None, proposalParts := Some(polka.value.parts)), NIL_ID, Precommit);
      }
    }
  }

  /** A late polka drops the lock exactly if it is of a round above the lock, not above the node's, and for something else. */
  lemma PolkaMeaning(s: RoundState, round: int)
    ensures var s' := OnPolka(s, round);
            var polka := TwoThirdsMajority(Prevotes(s.votes, round));
            && s'.sent == s.sent && s'.chain == s.chain
            && (s'.lockedBlock != s.lockedBlock <==>
                  polka.Some? && s.lockedBlock.Some? && s.lockedRound < round <= s.round && polka.value.hash != s.lockedBlock)
            && (s'.lockedBlock != s.lockedBlock ==> s'.lockedBlock == None && s'.lockedRound == -1)
            && (s'.validBlock != s.validBlock ==> polka.Some? && s'.validBlock == polka.value.hash && s'.validRound == round == s.round)
  {
  }

  /** The chain grows by one block at a time, only from step Commit, and only by the valid block the precommits chose. */
  lemma CommitMeaning(p: Params, e: Env, s: RoundState)
    ensures var s' := TryFinalizeCommit(p, e, s);
            var majority := TwoThirdsMajority(Precommits(s.votes, s.commitRound));
            s'.chain != s.chain ==>
              && s.step == Commit && s.panic.None? && majority.Some? && majority.value.hash.Some?
              && s'.chain == s.chain + [majority.value.hash.value] && p.validAfter(s.chain, majority.value.hash.value)
              && s.proposalBlock == majority.value.hash && s.proposalParts == Some(majority.value.parts)
              && s'.height == p.initialHeight + |s'.chain| && s'.round == 0 && s'.step == NewHeight
              && s'.lockedBlock == None && s'.validBlock == None && s'.lastCommit == Precommits(s.votes, s.commitRound)
  {
  }

  // --- when a node stops -------------------------------------------------------

  /** Finalizing stops on the part set header exactly if the block the node holds for the commit came under another one. */
  lemma PartsMismatchExactly(p: Params, e: Env, s: RoundState)
    requires s.panic.None? && s.step == Commit
    ensures var majority := TwoThirdsMajority(Precommits(s.votes, s.commitRound));
            TryFinalizeCommit(p, e, s).panic == Some(CommitPartsMismatch) <==>
              && majority.Some? && majority.value.hash.Some?
              && s.proposalBlock == majority.value.hash && s.proposalParts != Some(majority.value.parts)
  {
  }

  /** No step but counting a late precommit stops for lack of a last commit. */
  ghost predicate NotForLastCommit(s: RoundState, s': RoundState) {
    s'.panic == Some(NoLastCommit) ==> s.panic == Some(NoLastCommit)
  }

  lemma EntersNotForLastCommit(p: Params, e: Env, s: RoundState, h: int, r: int)
    ensures NotForLastCommit(s, EnterPrevote(p, e, s, h, r))
    ensures NotForLastCommit(s, EnterPropose(p, e, s, h, r))
    ensures NotForLastCommit(s, EnterPrevoteWait(s, h, r))
    ensures NotForLastCommit(s, EnterPrecommitWait(s, h, r))
    ensures NotForLastCommit(s, EnterPrecommit(p, e, s, h, r))
  {
    hide HasAddress; hide PrevoteChoice; hide IsProposalComplete; hide HasTwoThirdsAny; hide EnterPrecommit;
    PrecommitNotForLastCommit(p, e, s, h, r);
  }

  lemma PrecommitNotForLastCommit(p: Params, e: Env, s: RoundState, h: int, r: int)
    ensures NotForLastCommit(s, EnterPrecommit(p, e, s, h, r))
  {
    hide HasAddress; hide PolRound; hide TwoThirdsMajority; hide HashesTo; hide HasHeader;
  }

  lemma RoundsNotForLastCommit(p: Params, e: Env, s: RoundState, h: int, r: int)
    ensures NotForLastCommit(s, EnterNewRound(p, e, s, h, r))
    ensures NotForLastCommit(s, TryFinalizeCommit(p, e, s))
  {
    hide EnterPropose; hide TrackRounds; hide UpdateToState;
    forall s3: RoundState ensures NotForLastCommit(s3, EnterPropose(p, e, s3, h, r)) { EntersNotForLastCommit(p, e, s3, h, r); }
    assert forall d: Hash :: UpdateToState(p, s, d).panic == s.panic by { UpdateKeepsPanic(p, s); }
  }

  lemma UpdateKeepsPanic(p: Params, s: RoundState)
    ensures forall d: Hash :: UpdateToState(p, s, d).panic == s.panic
  {
  }

  lemma CommitNotForLastCommit(p: Params, e: Env, s: RoundState, h: int, r: int)
    ensures NotForLastCommit(s, EnterCommit(p, e, s, h, r))
  {
    hide TryFinalizeCommit;
    var majority := TwoThirdsMajority(Precommits(s.votes, r));
    if majority.Some? { RoundsNotForLastCommit(p, e, FetchCommitted(s, majority.value).(step := Commit, commitRound := r), h, r); }
  }

  lemma VoteNotForLastCommit(p: Params, e: Env, s: RoundState, r: int)
    ensures NotForLastCommit(s, OnPrevote(p, e, s, r)) && NotForLastCommit(s, OnPrecommit(p, e, s, r))
  {
    hide EnterPrevote; hide EnterPropose; hide EnterPrevoteWait; hide EnterPrecommitWait; hide EnterPrecommit;
    hide EnterNewRound; hide EnterCommit; hide TryFinalizeCommit; hide HasTwoThirdsAny; hide IsProposalComplete; hide HasAll;
    forall t: RoundState, h: int, x: int
      ensures NotForLastCommit(t, EnterNewRound(p, e, t, h, x)) && NotForLastCommit(t, EnterCommit(p, e, t, h, x))
      ensures NotForLastCommit(t, EnterPrevote(p, e, t, h, x)) && NotForLastCommit(t, EnterPrevoteWait(t, h, x))
      ensures NotForLastCommit(t, EnterPrecommit(p, e, t, h, x)) && NotForLastCommit(t, EnterPrecommitWait(t, h, x))
    {
      EntersNotForLastCommit(p, e, t, h, x);
      RoundsNotForLastCommit(p, e, t, h, x);
      CommitNotForLastCommit(p, e, t, h, x);
    }
  }

  lemma LateVoteExactly(p: Params, e: Env, s: RoundState, v: Vote, signatureOk: bool)
    requires s.panic.None?
    ensures AddLastCommitVote(p, e, s, v, signatureOk).panic == Some(NoLastCommit) <==> s.step == NewHeight && s.lastCommit.None?
  {
    hide EnterNewRound; hide AddVote; hide HasAll;
    if s.step == NewHeight && s.lastCommit.Some? {
      var s1 := s.(lastCommit := Some(AddVote(s.lastCommit.value, v, signatureOk).voteSet), seen := s.seen + {v});
      RoundsNotForLastCommit(p, e, s1, s1.height, 0);
    }
  }

  lemma CountedVoteNever(p: Params, e: Env, s: RoundState, v: Vote, peer: Peer, signatureOk: bool)
    requires s.panic.None? && !(v.height + 1 == s.height && v.kind.PrecommitType?)
    ensures AddVoteMsg(p, e, s, v, peer, signatureOk).panic != Some(NoLastCommit)
  {
    hide OnPrevote; hide OnPrecommit; hide OnPolka; hide AddToHeight; hide AddLastCommitVote;
    var s2 := s.(votes := AddToHeight(s.votes, v, peer, signatureOk).0, seen := s.seen + {v});
    PolkaKeepsPanic(s2, v.round);
    VoteNotForLastCommit(p, e, OnPolka(s2, v.round), v.round);
    VoteNotForLastCommit(p, e, s2, v.round);
  }

  /** A vote stops the node for lack of a last commit exactly if it is a precommit of the height before the first, in step NewHeight. */
  lemma NoLastCommitExactly(p: Params, e: Env, s: RoundState, v: Vote, peer: Peer, signatureOk: bool)
    requires NodeOk(p, s) && s.panic.None?
    ensures AddVoteMsg(p, e, s, v, peer, signatureOk).panic == Some(NoLastCommit) <==>
              s.chain == [] && s.step == NewHeight && v.kind.PrecommitType? && v.height + 1 == p.initialHeight
  {
    assert Shape(p, s);
    hide NodeOk;
    if v.height + 1 == s.height && v.kind.PrecommitType? {
      LateVoteExactly(p, e, s, v, signatureOk);
      hide AddLastCommitVote;
    } else {
      CountedVoteNever(p, e, s, v, peer, signatureOk);
      hide AddVoteMsg;
    }
  }

  /** Such a vote exists: a precommit of the height before the first stops any node that has just started. */
  lemma PrecommitStopsNewNode(p: Params, e: Env, v: Vote, peer: Peer, signatureOk: bool)
    requires ParamsOk(p) && v.kind.PrecommitType? && v.height + 1 == p.initialHeight
    ensures AddVoteMsg(p, e, Start(p), v, peer, signatureOk).panic == Some(NoLastCommit)
  {
    StartOk(p);
    NoLastCommitExactly(p, e, Start(p), v, peer, signatureOk);
    hide AddVoteMsg; hide NodeOk;
  }

  lemma PolkaKeepsPanic(s: RoundState, round: int)
    ensures OnPolka(s, round).panic == s.panic
  {
  }
}
