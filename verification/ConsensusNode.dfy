/**
 The consensus state as the object that embeds the round state, as the source's
 State does, and updates it field by field, in the source's order of effects:
 early returns, deferred step updates, and steps that call further steps.  Each
 step is proved to do what its rule says, to keep the node invariant, and to
 move forward without giving up a lock except on a newer polka.
 */
module ConsensusNode {
  import opened Basics
  import opened Validators
  import opened VoteSets
  import opened ConsensusRules
  import opened ConsensusInvariant
  import opened ConsensusSteps

  /** A step from a state that satisfies the node invariant keeps it, moves forward, and respects the lock. */
  ghost predicate Kept(p: Params, s: RoundState, s': RoundState) {
    NodeOk(p, s) ==> NodeOk(p, s') && Evolves(s, s')
  }

  lemma NewRoundKept(p: Params, e: Env, s: RoundState, h: int, r: int)
    ensures Kept(p, s, EnterNewRound(p, e, s, h, r))
  {
    hide NodeOk; hide Evolves; hide EnterNewRound;
    if NodeOk(p, s) { EnterNewRoundOk(p, e, s, h, r); }
  }

  class State {
    const params: Params
    var rs: RoundState

    constructor (p: Params)
      ensures params == p && rs == Start(p)
      ensures ParamsOk(p) ==> NodeOk(params, rs)
    {
      params := p;
      rs := Start(p);
      new;
      if ParamsOk(p) { StartOk(p); }
    }

    method UpdateRoundStep(r: int, s: Step)
      modifies this`rs
      ensures rs == At(old(rs), r, s)
    {
      rs := rs.(round := r, step := s);
    }

    method ScheduleTimeout(r: int, s: Step)
      modifies this`rs
      ensures rs == Schedule(old(rs), r, s)
    {
      rs := rs.(timeouts := rs.timeouts + {Timeout(rs.height, r, s)});
    }

    method DropLock()
      modifies this`rs
      ensures rs == Unlock(old(rs))
    {
      rs := rs.(lockedRound := -1, lockedBlock := None, lockedParts := None);
    }

    method SignVote(e: Env, kind: VoteType, block: BlockID)
      modifies this`rs
      ensures rs == SignAddVote(params, e, old(rs), kind, block)
    {
      if !HasAddress(params.valsAfter(rs.chain), params.me) {
        return;
      }
      var ok := if kind.PrevoteType? then e.signPrevote else e.signPrecommit;
      if ok {
        rs := rs.(sent := rs.sent + [Signed(Vote(kind, rs.height, rs.round, params.me, block), rs.seen)]);
      }
    }

    method EnterNewRound(e: Env, h: int, r: int)
      modifies this`rs
      ensures rs == ConsensusRules.EnterNewRound(params, e, old(rs), h, r)
      ensures Kept(params, old(rs), rs)
    {
      hide NodeOk; hide Evolves;
      NewRoundKept(params, e, rs, h, r);
      hide Kept;
      hide ConsensusRules.EnterPropose; hide TrackRounds;
      if rs.panic.Some? || rs.height != h || r < rs.round || (rs.round == r && rs.step != NewHeight) {
        return;
      }
      UpdateRoundStep(r, NewRound);
      if r != 0 {
        rs := rs.(proposal := None, proposalBlock := None, proposalParts := None);
      }
      if rs.votes.maxRound != 0 && r + 1 < rs.votes.maxRound - 1 {
        rs := rs.(panic := Some(RoundNotIncreasing));
        return;
      }
      rs := rs.(votes := TrackRounds(rs.votes, r + 1), triggeredPrecommitWait := false);
      if params.waitForTxs && r == 0 && !e.needProofBlock {
        if params.emptyBlocksInterval {
          ScheduleTimeout(r, NewRound);
        }
      } else {
        EnterPropose(e, h, r);
      }
    }

    method EnterPropose(e: Env, h: int, r: int)
      modifies this`rs
      ensures rs == ConsensusRules.EnterPropose(params, e, old(rs), h, r)
      ensures Here(old(rs), h, r) && r >= 0 ==> Kept(params, old(rs), rs)
    {
      hide NodeOk; hide Evolves;
      if NodeOk(params, rs) && Here(rs, h, r) && r >= 0 { EnterProposeOk(params, e, rs, h, r); }
      if rs.panic.Some? || rs.height != h || r < rs.round || (rs.round == r && Rank(Propose) <= Rank(rs.step)) {
        return;
      }
      ScheduleTimeout(r, Propose);
      UpdateRoundStep(r, Propose);
      var complete := ProposalComplete();
      if complete {
        EnterPrevote(e, h, rs.round);
      }
    }

    method ProposalComplete() returns (complete: bool)
      ensures complete <==> IsProposalComplete(rs)
    {
      if rs.proposal.None? || rs.proposalBlock.None? {
        return false;
      }
      if rs.proposal.value.polRound < 0 {
        return true;
      }
      return HasTwoThirdsMajority(Prevotes(rs.votes, rs.proposal.value.polRound));
    }

    method DoPrevote(e: Env)
      modifies this`rs
      ensures rs == SignAddVote(params, e, old(rs), PrevoteType, PrevoteChoice(params, old(rs)))
    {
      if rs.lockedBlock.Some? {
        SignVote(e, PrevoteType, BlockID(rs.lockedBlock, Header(rs.lockedParts)));
        return;
      }
      if rs.proposalBlock.None? {
        SignVote(e, PrevoteType, NIL_ID);
        return;
      }
      if !params.validAfter(rs.chain, rs.proposalBlock.value) {
        SignVote(e, PrevoteType, NIL_ID);
        return;
      }
      SignVote(e, PrevoteType, BlockID(rs.proposalBlock, Header(rs.proposalParts)));
    }

    method EnterPrevote(e: Env, h: int, r: int)
      modifies this`rs
      ensures rs == ConsensusRules.EnterPrevote(params, e, old(rs), h, r)
      ensures Here(old(rs), h, r) ==> Kept(params, old(rs), rs)
    {
      hide NodeOk; hide Evolves;
      if NodeOk(params, rs) && Here(rs, h, r) { EnterPrevoteOk(params, e, rs, h, r); }
      if rs.panic.Some? || rs.height != h || r < rs.round || (rs.round == r && Rank(Prevote) <= Rank(rs.step)) {
        return;
      }
      DoPrevote(e);
      UpdateRoundStep(r, Prevote);
    }

    method EnterPrevoteWait(h: int, r: int)
      modifies this`rs
      ensures rs == ConsensusRules.EnterPrevoteWait(old(rs), h, r)
      ensures Here(old(rs), h, r) && HasTwoThirdsAny(Prevotes(old(rs).votes, r)) ==> Kept(params, old(rs), rs)
    {
      hide NodeOk; hide Evolves;
      if NodeOk(params, rs) && Here(rs, h, r) && HasTwoThirdsAny(Prevotes(rs.votes, r)) { EnterPrevoteWaitOk(params, rs, h, r); }
      if rs.panic.Some? || rs.height != h || r < rs.round || (rs.round == r && Rank(PrevoteWait) <= Rank(rs.step)) {
        return;
      }
      if !HasTwoThirdsAny(Prevotes(rs.votes, r)) {
        rs := rs.(panic := Some(NoTwoThirdsAny));
        return;
      }
      ScheduleTimeout(r, PrevoteWait);
      UpdateRoundStep(r, PrevoteWait);
    }

    method PrecommitOn(e: Env, r: int)
      modifies this`rs
      ensures rs == DoPrecommit(params, e, old(rs), r)
    {
      hide SignAddVote; hide PolRound; hide TwoThirdsMajority; hide Prevotes; hide HasHeader;
      var polka := TwoThirdsMajority(Prevotes(rs.votes, r));
      if polka.None? {
        SignVote(e, PrecommitType, NIL_ID);
        return;
      }
      if PolRound(rs.votes, rs.votes.maxRound) < r {
        rs := rs.(panic := Some(PolRoundBehind));
        return;
      }
      if polka.value.hash.None? {
        if rs.lockedBlock.Some? {
          DropLock();
        }
        SignVote(e, PrecommitType, NIL_ID);
        return;
      }
      if HashesTo(rs.lockedBlock, polka.value.hash) {
        rs := rs.(lockedRound := r);
        SignVote(e, PrecommitType, polka.value);
        return;
      }
      if HashesTo(rs.proposalBlock, polka.value.hash) {
        if !params.validAfter(rs.chain, rs.proposalBlock.value) {
          rs := rs.(panic := Some(PolkaForInvalidBlock));
          return;
        }
        rs := rs.(lockedRound := r, lockedBlock := rs.proposalBlock, lockedParts := rs.proposalParts);
        SignVote(e, PrecommitType, polka.value);
        return;
      }
      DropLock();
      if !HasHeader(rs.proposalParts, polka.value.parts) {
        rs := rs.(proposalBlock := None, proposalParts := Some(polka.value.parts));
      }
      SignVote(e, PrecommitType, NIL_ID);
    }

    method EnterPrecommit(e: Env, h: int, r: int)
      modifies this`rs
      ensures rs == ConsensusRules.EnterPrecommit(params, e, old(rs), h, r)
      ensures Here(old(rs), h, r) ==> Kept(params, old(rs), rs)
    {
      hide NodeOk; hide Evolves;
      if NodeOk(params, rs) && Here(rs, h, r) { EnterPrecommitOk(params, e, rs, h, r); }
      if rs.panic.Some? || rs.height != h || r < rs.round || (rs.round == r && Rank(Precommit) <= Rank(rs.step)) {
        return;
      }
      PrecommitOn(e, r);
      UpdateRoundStep(r, Precommit);
    }

    method EnterPrecommitWait(h: int, r: int)
      modifies this`rs
      ensures rs == ConsensusRules.EnterPrecommitWait(old(rs), h, r)
      ensures Here(old(rs), h, r) && HasTwoThirdsAny(Precommits(old(rs).votes, r)) ==> Kept(params, old(rs), rs)
    {
      hide NodeOk; hide Evolves;
      if NodeOk(params, rs) && Here(rs, h, r) && HasTwoThirdsAny(Precommits(rs.votes, r)) { EnterPrecommitWaitOk(params, rs, h, r); }
      if rs.panic.Some? || rs.height != h || r < rs.round || (rs.round == r && rs.triggeredPrecommitWait) {
        return;
      }
      if !HasTwoThirdsAny(Precommits(rs.votes, r)) {
        rs := rs.(panic := Some(NoTwoThirdsAny));
        return;
      }
      ScheduleTimeout(r, PrecommitWait);
      rs := rs.(triggeredPrecommitWait := true);
    }

    method EnterCommit(e: Env, h: int, r: int)
      modifies this`rs
      ensures rs == ConsensusRules.EnterCommit(params, e, old(rs), h, r)
      ensures TwoThirdsMajority(Precommits(old(rs).votes, r)).Some? ==> Kept(params, old(rs), rs)
    {
      hide NodeOk; hide Evolves;
      if NodeOk(params, rs) && TwoThirdsMajority(Precommits(rs.votes, r)).Some? { EnterCommitOk(params, e, rs, h, r); }
      hide ConsensusRules.TryFinalizeCommit; hide TwoThirdsMajority; hide Precommits; hide HashesTo; hide HasHeader;
      if rs.panic.Some? || rs.height != h || Rank(Commit) <= Rank(rs.step) {
        return;
      }
      var majority := TwoThirdsMajority(Precommits(rs.votes, r));
      if majority.None? {
        rs := rs.(panic := Some(NoCommitMajority));
        return;
      }
      if HashesTo(rs.lockedBlock, majority.value.hash) {
        rs := rs.(proposalBlock := rs.lockedBlock);
        rs := rs.(proposalParts := rs.lockedParts);
      }
      if !HashesTo(rs.proposalBlock, majority.value.hash) {
        if !HasHeader(rs.proposalParts, majority.value.parts) {
          rs := rs.(proposalBlock := None);
          rs := rs.(proposalParts := Some(majority.value.parts));
        }
      }
      UpdateRoundStep(rs.round, Commit);
      rs := rs.(commitRound := r);
      TryFinalizeCommit(e);
    }

    method TryFinalizeCommit(e: Env)
      modifies this`rs
      ensures rs == ConsensusRules.TryFinalizeCommit(params, e, old(rs))
      ensures Kept(params, old(rs), rs)
    {
      hide NodeOk; hide Evolves;
      if NodeOk(params, rs) { TryFinalizeCommitOk(params, e, rs); }
      var majority := TwoThirdsMajority(Precommits(rs.votes, rs.commitRound));
      if rs.panic.Some? || majority.None? || majority.value.hash.None? {
        return;
      }
      if !HashesTo(rs.proposalBlock, majority.value.hash) {
        return;
      }
      FinalizeCommit(e, majority.value);
    }

    method FinalizeCommit(e: Env, block: BlockID)
      modifies this`rs
      ensures rs == ConsensusRules.FinalizeCommit(params, e, old(rs), block)
    {
      if rs.step != Commit || block.hash.None? {
        return;
      }
      if !HasHeader(rs.proposalParts, block.parts) {
        rs := rs.(panic := Some(CommitPartsMismatch));
        return;
      }
      if !params.validAfter(rs.chain, block.hash.value) {
        rs := rs.(panic := Some(CommitOfInvalidBlock));
        return;
      }
      if e.applyOk {
        UpdateToState(block.hash.value);
      }
    }

    method UpdateToState(decided: Hash)
      modifies this`rs
      ensures rs == ConsensusRules.UpdateToState(params, old(rs), decided)
    {
      hide Precommits; hide NewHeightVotes;
      rs := rs.(lastCommit := Precommits(rs.votes, rs.commitRound));
      rs := rs.(chain := rs.chain + [decided]);
      rs := rs.(height := params.initialHeight + |rs.chain|);
      UpdateRoundStep(0, NewHeight);
      rs := rs.(proposal := None, proposalBlock := None, proposalParts := None);
      DropLock();
      rs := rs.(validRound := -1, validBlock := None, validParts := None);
      rs := rs.(votes := NewHeightVotes(rs.height, params.valsAfter(rs.chain)));
      rs := rs.(commitRound := -1, triggeredPrecommitWait := false);
      ScheduleTimeout(0, NewHeight);
    }

    method HandleCompleteProposal(e: Env, h: int)
      modifies this`rs
      ensures rs == ConsensusRules.HandleCompleteProposal(params, e, old(rs), h)
      ensures old(rs).panic.None? ==> Kept(params, old(rs), rs)
    {
      hide NodeOk; hide Evolves;
      if NodeOk(params, rs) && rs.panic.None? { HandleCompleteProposalOk(params, e, rs, h); }
      var polka := TwoThirdsMajority(Prevotes(rs.votes, rs.round));
      if polka.Some? && rs.validRound < rs.round {
        if HashesTo(rs.proposalBlock, polka.value.hash) {
          rs := rs.(validRound := rs.round, validBlock := rs.proposalBlock, validParts := rs.proposalParts);
        }
      }
      var complete := ProposalComplete();
      if Rank(rs.step) <= Rank(Propose) && complete {
        EnterPrevote(e, h, rs.round);
        if polka.Some? {
          EnterPrecommit(e, h, rs.round);
        }
      } else if rs.step == Commit {
        TryFinalizeCommit(e);
      }
    }

    method ReceiveProposal(p: Proposal, signatureOk: bool)
      modifies this`rs
      ensures rs == SetProposal(old(rs), p, signatureOk)
      ensures old(rs).panic.None? ==> Kept(params, old(rs), rs)
    {
      hide NodeOk; hide Evolves;
      if NodeOk(params, rs) && rs.panic.None? { SetProposalOk(params, rs, p, signatureOk); }
      if rs.proposal.Some? {
        return;
      }
      if p.height != rs.height || p.round != rs.round {
        return;
      }
      if p.polRound < -1 || (p.polRound >= 0 && p.polRound >= p.round) {
        return;
      }
      if !signatureOk {
        return;
      }
      rs := rs.(proposal := Some(p));
      if rs.proposalParts.None? {
        rs := rs.(proposalParts := Some(p.parts));
      }
    }

    method ReceiveBlockPart(e: Env, h: int, outcome: PartOutcome)
      modifies this`rs
      ensures rs == AddBlockPart(params, e, old(rs), h, outcome)
      ensures old(rs).panic.None? ==> Kept(params, old(rs), rs)
    {
      hide NodeOk; hide Evolves;
      if NodeOk(params, rs) && rs.panic.None? { AddBlockPartOk(params, e, rs, h, outcome); }
      if rs.height != h || rs.proposalParts.None? || outcome.NotAdded? {
        return;
      }
      if outcome.complete {
        if outcome.decoded.Some? {
          rs := rs.(proposalBlock := outcome.decoded);
        }
        HandleCompleteProposal(e, h);
      }
    }

    method NotePolka(r: int)
      modifies this`rs
      ensures rs == OnPolka(old(rs), r)
      ensures old(rs).panic.None? ==> Kept(params, old(rs), rs)
    {
      hide NodeOk; hide Evolves;
      if NodeOk(params, rs) && rs.panic.None? { OnPolkaOk(params, rs, r); }
      hide TwoThirdsMajority; hide Prevotes; hide HashesTo; hide HasHeader;
      var polka := TwoThirdsMajority(Prevotes(rs.votes, r));
      if polka.Some? {
        if rs.lockedBlock.Some? && rs.lockedRound < r && r <= rs.round && !HashesTo(rs.lockedBlock, polka.value.hash) {
          DropLock();
        }
        if polka.value.hash.Some? && rs.validRound < r && r == rs.round {
          if HashesTo(rs.proposalBlock, polka.value.hash) {
            rs := rs.(validRound := r, validBlock := rs.proposalBlock, validParts := rs.proposalParts);
          } else {
            rs := rs.(proposalBlock := None);
          }
          if !HasHeader(rs.proposalParts, polka.value.parts) {
            rs := rs.(proposalParts := Some(polka.value.parts));
          }
        }
      }
    }

    method AfterPrevote(e: Env, r: int)
      modifies this`rs
      ensures rs == OnPrevote(params, e, old(rs), r)
      ensures Kept(params, old(rs), rs)
    {
      hide NodeOk; hide Evolves;
      if NodeOk(params, rs) { OnPrevoteOk(params, e, rs, r); }
      var prevotes := Prevotes(rs.votes, r);
      var complete := ProposalComplete();
      if rs.round < r && HasTwoThirdsAny(prevotes) {
        EnterNewRound(e, rs.height, r);
      } else if rs.round == r && Rank(Prevote) <= Rank(rs.step) {
        var polka := TwoThirdsMajority(prevotes);
        if polka.Some? && (complete || polka.value.hash.None?) {
          EnterPrecommit(e, rs.height, r);
        } else if HasTwoThirdsAny(prevotes) {
          EnterPrevoteWait(rs.height, r);
        }
      } else if rs.proposal.Some? && 0 <= rs.proposal.value.polRound && rs.proposal.value.polRound == r {
        if complete {
          EnterPrevote(e, rs.height, rs.round);
        }
      }
    }

    method AfterPrecommit(e: Env, r: int)
      modifies this`rs
      ensures rs == OnPrecommit(params, e, old(rs), r)
      ensures old(rs).panic.None? ==> Kept(params, old(rs), rs)
    {
      hide NodeOk; hide Evolves;
      if NodeOk(params, rs) && rs.panic.None? { OnPrecommitOk(params, e, rs, r); }
      var h := rs.height;
      var precommits := Precommits(rs.votes, r);
      var majority := TwoThirdsMajority(precommits);
      if majority.Some? {
        EnterNewRound(e, h, r);
        EnterPrecommit(e, h, r);
        if majority.value.hash.Some? {
          EnterCommit(e, h, r);
          if params.skipTimeoutCommit && HasAll(precommits) {
            EnterNewRound(e, rs.height, 0);
          }
        } else {
          EnterPrecommitWait(h, r);
        }
      } else if rs.round <= r && HasTwoThirdsAny(precommits) {
        EnterNewRound(e, h, r);
        EnterPrecommitWait(h, r);
      }
    }

    method ReceiveVote(e: Env, v: Vote, peer: Peer, signatureOk: bool)
      modifies this`rs
      ensures rs == AddVoteMsg(params, e, old(rs), v, peer, signatureOk)
      ensures old(rs).panic.None? ==> Kept(params, old(rs), rs)
    {
      hide NodeOk; hide Evolves;
      if NodeOk(params, rs) && rs.panic.None? { AddVoteMsgOk(params, e, rs, v, peer, signatureOk); }
      if v.height + 1 == rs.height && v.kind.PrecommitType? {
        ReceiveLateVote(e, v, signatureOk);
        return;
      }
      if v.height != rs.height {
        return;
      }
      var (votes', added) := AddToHeight(rs.votes, v, peer, signatureOk);
      rs := rs.(votes := votes');
      if !added {
        return;
      }
      rs := rs.(seen := rs.seen + {v});
      if v.kind.PrevoteType? {
        NotePolka(v.round);
        AfterPrevote(e, v.round);
      } else {
        AfterPrecommit(e, v.round);
      }
    }

    method ReceiveLateVote(e: Env, v: Vote, signatureOk: bool)
      modifies this`rs
      ensures rs == AddLastCommitVote(params, e, old(rs), v, signatureOk)
      ensures old(rs).panic.None? ==> Kept(params, old(rs), rs)
    {
      hide NodeOk; hide Evolves;
      if NodeOk(params, rs) && rs.panic.None? { LastCommitVoteOk(params, e, rs, v, signatureOk); }
      if rs.step != NewHeight {
        return;
      }
      if rs.lastCommit.None? {
        rs := rs.(panic := Some(NoLastCommit));
        return;
      }
      var r := AddVote(rs.lastCommit.value, v, signatureOk);
      rs := rs.(lastCommit := Some(r.voteSet));
      if !r.added {
        return;
      }
      rs := rs.(seen := rs.seen + {v});
      if params.skipTimeoutCommit && HasAll(rs.lastCommit) {
        EnterNewRound(e, rs.height, 0);
      }
    }

    method HandleTimeout(e: Env, t: Timeout)
      modifies this`rs
      ensures rs == OnTimeout(params, e, old(rs), t)
      ensures old(rs).panic.None? && t in old(rs).timeouts ==> Kept(params, old(rs), rs)
    {
      hide NodeOk; hide Evolves;
      if NodeOk(params, rs) && rs.panic.None? && t in rs.timeouts { OnTimeoutOk(params, e, rs, t); }
      hide ConsensusRules.EnterNewRound; hide ConsensusRules.EnterPropose; hide ConsensusRules.EnterPrevote;
      hide ConsensusRules.EnterPrecommit;
      if t.height != rs.height || t.round < rs.round || (t.round == rs.round && Rank(t.step) < Rank(rs.step)) {
        return;
      }
      match t.step {
        case NewHeight => EnterNewRound(e, t.height, 0);
        case NewRound => EnterPropose(e, t.height, 0);
        case Propose => EnterPrevote(e, t.height, t.round);
        case PrevoteWait => EnterPrecommit(e, t.height, t.round);
        case PrecommitWait =>
          EnterPrecommit(e, t.height, t.round);
          EnterNewRound(e, t.height, t.round + 1);
        case _ => rs := rs.(panic := Some(InvalidTimeoutStep));
      }
    }

    method HandleTxsAvailable(e: Env)
      modifies this`rs
      ensures rs == OnTxsAvailable(params, e, old(rs))
      ensures old(rs).panic.None? ==> Kept(params, old(rs), rs)
    {
      hide NodeOk; hide Evolves;
      if NodeOk(params, rs) && rs.panic.None? { OnTxsAvailableOk(params, e, rs); }
      if rs.round != 0 {
        return;
      }
      if rs.step == NewHeight {
        if !e.needProofBlock {
          ScheduleTimeout(0, NewRound);
        }
      } else if rs.step == NewRound {
        EnterPropose(e, rs.height, 0);
      }
    }

    /**
     One turn of the receive routine, in place.  In every state that satisfies
     the node invariant the turn keeps it, moves the node forward and respects
     its lock.
     */
    method Receive(e: Env, i: Input)
      requires NodeOk(params, rs) && Deliverable(rs, i)
      modifies this`rs
      ensures rs == Handle(params, e, old(rs), i)
      ensures NodeOk(params, rs) && Evolves(old(rs), rs)
    {
      HandleOk(params, e, rs, i);
      hide NodeOk; hide Evolves;
      hide SetProposal; hide AddBlockPart; hide AddVoteMsg; hide OnTimeout; hide OnTxsAvailable;
      if rs.panic.Some? {
        return;
      }
      match i {
        case ProposalMsg(p, ok) => ReceiveProposal(p, ok);
        case BlockPartMsg(h, outcome) => ReceiveBlockPart(e, h, outcome);
        case VoteMsg(v, peer, ok) => ReceiveVote(e, v, peer, ok);
        case TimeoutMsg(t) => HandleTimeout(e, t);
        case TxsAvailable => HandleTxsAvailable(e);
        case PeerMajority(r, kind, peer, b) =>
          var vs := VoteSetAt(rs.votes, r, kind);
          if vs.Some? {
            rs := rs.(votes := PutVoteSet(rs.votes, r, kind, SetPeerMaj23(vs.value, peer, b)));
          }
      }
    }
  }
}
