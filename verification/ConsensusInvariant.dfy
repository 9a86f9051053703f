/**
 What every handled input keeps true of one node, whatever votes, proposals,
 block parts and timeouts arrive: the node's place only moves forward, its lock
 is justified by a polka it holds, it signs at most one prevote and one
 precommit per round, and a precommit binds its later prevotes until a newer
 polka releases it.
 */
module ConsensusInvariant {
  import opened Basics
  import opened Validators
  import opened VoteSets
  import opened ConsensusRules

  // --- quorums among a set of votes ----------------------------------------

  ghost function Supporters(votes: set<Vote>, kind: VoteType, h: int, r: int, b: BlockID): set<Address> {
    set v | v in votes && v.kind == kind && v.height == h && v.round == r && v.block == b :: v.address
  }

  /** More than two thirds of `vals` cast this vote, according to `votes`. */
  ghost predicate Quorum(vals: ValidatorSet, votes: set<Vote>, kind: VoteType, h: int, r: int, b: BlockID) {
    IsQuorum(vals, PowerOf(vals, Supporters(votes, kind, h, r, b)))
  }

  lemma QuorumGrows(vals: ValidatorSet, v1: set<Vote>, v2: set<Vote>, kind: VoteType, h: int, r: int, b: BlockID)
    requires v1 <= v2 && Quorum(vals, v1, kind, h, r, b)
    ensures Quorum(vals, v2, kind, h, r, b)
  {
    PowerMonotone(vals, Supporters(v1, kind, h, r, b), Supporters(v2, kind, h, r, b));
  }

  /** A polka above `low`, up to `high`, for something other than `hash`. */
  ghost predicate Released(vals: ValidatorSet, votes: set<Vote>, h: int, low: int, high: int, hash: Option<Hash>) {
    exists r: int, b: BlockID ::
      low < r <= high && b.hash != hash && Quorum(vals, votes, PrevoteType, h, r, b)
  }

  lemma ReleasedGrows(vals: ValidatorSet, v1: set<Vote>, v2: set<Vote>, h: int, low: int, hi1: int, hi2: int,
                      hash: Option<Hash>)
    requires v1 <= v2 && hi1 <= hi2 && Released(vals, v1, h, low, hi1, hash)
    ensures Released(vals, v2, h, low, hi2, hash)
  {
    hide Quorum;
    var r: int, b: BlockID :|
      low < r <= hi1 && b.hash != hash && Quorum(vals, v1, PrevoteType, h, r, b);
    QuorumGrows(vals, v1, v2, PrevoteType, h, r, b);
  }

  // --- the invariant -------------------------------------------------------

  ghost predicate ParamsOk(p: Params) {
    forall c: seq<Hash> :: Distinct(p.valsAfter(c))
  }

  /** The blocks decided before height `h`, as this node knows them. */
  function ChainBefore(p: Params, chain: seq<Hash>, h: int): seq<Hash> {
    if 0 <= h - p.initialHeight <= |chain| then chain[..h - p.initialHeight] else chain
  }

  function ValsAt(p: Params, chain: seq<Hash>, h: int): ValidatorSet { p.valsAfter(ChainBefore(p, chain, h)) }

  ghost predicate Shape(p: Params, s: RoundState) {
    && s.height == p.initialHeight + |s.chain|
    && s.votes.height == s.height && s.votes.vals == p.valsAfter(s.chain)
    && 0 <= s.round <= s.votes.maxRound <= s.round + 1
    && (s.lastCommit.Some? <==> s.chain != [])
  }

  /** Every vote counter is consistent and counts only votes the node has seen. */
  ghost predicate VotesOk(hv: HeightVotes, seen: set<Vote>) {
    forall r: int, k: VoteType :: VoteSetAt(hv, r, k).Some? ==> VoteSetOk(hv, seen, r, k, VoteSetAt(hv, r, k).value)
  }

  ghost predicate VoteSetOk(hv: HeightVotes, seen: set<Vote>, r: int, k: VoteType, vs: VoteSet) {
    && Valid(vs) && vs.vals == hv.vals && vs.height == hv.height && vs.round == r && vs.kind == k
    && (forall b: BlockID, a: Address :: a in VotersFor(vs, b) ==> Vote(k, hv.height, r, a, b) in seen)
  }

  ghost predicate TimeoutsOk(s: RoundState) {
    forall t :: t in s.timeouts ==>
      && (t.height < s.height || (t.height == s.height && t.round <= s.round))
      && t.step in {NewHeight, NewRound, Propose, PrevoteWait, PrecommitWait}
      && (t.step in {NewHeight, NewRound} ==> t.round == 0)
  }

  ghost predicate HasPolka(s: RoundState, r: int, hash: Option<Hash>) {
    TwoThirdsMajority(Prevotes(s.votes, r)).Some? && TwoThirdsMajority(Prevotes(s.votes, r)).value.hash == hash
  }

  /** A block is locked iff there is a locked round, and the node holds that round's polka for it. */
  ghost predicate LockJustified(p: Params, s: RoundState) {
    && (s.lockedBlock.Some? <==> s.lockedRound != -1)
    && -1 <= s.lockedRound <= s.round
    && (s.lockedRound == s.round ==> Rank(Precommit) <= Rank(s.step))
    && (s.lockedBlock.Some? ==> HasPolka(s, s.lockedRound, s.lockedBlock) && p.validAfter(s.chain, s.lockedBlock.value))
  }

  ghost predicate ValidJustified(s: RoundState) {
    && (s.validBlock.Some? <==> s.validRound != -1)
    && -1 <= s.validRound <= s.round
    && (s.validBlock.Some? ==> HasPolka(s, s.validRound, s.validBlock))
  }

  /** A signed vote lies at or before the node's place, and its step has been entered. */
  ghost predicate Placed(v: Vote, h: int, r: int, step: Step) {
    || v.height < h
    || (v.height == h && v.round < r)
    || (v.height == h && v.round == r && (if v.kind.PrevoteType? then Rank(Prevote) else Rank(Precommit)) <= Rank(step))
  }

  ghost predicate SentPlaced(p: Params, s: RoundState) {
    forall x :: x in s.sent ==>
      && Placed(x.vote, s.height, s.round, s.step)
      && x.vote.address == p.me && x.vote.height >= p.initialHeight && x.basis <= s.seen
      && HasAddress(ValsAt(p, s.chain, x.vote.height), p.me)
  }

  predicate SameSlot(v: Vote, w: Vote) { v.kind == w.kind && v.height == w.height && v.round == w.round }

  ghost predicate SentUnique(sent: seq<Signed>) {
    forall i, j :: 0 <= i < j < |sent| ==> !SameSlot(sent[i].vote, sent[j].vote)
  }

  /** A precommit for a block rests on that round's polka; a prevote for a block is for a valid one. */
  ghost predicate Backed(p: Params, chain: seq<Hash>, x: Signed) {
    x.vote.block.hash.Some? ==>
      && (x.vote.kind.PrecommitType? ==>
            Quorum(ValsAt(p, chain, x.vote.height), x.basis, PrevoteType, x.vote.height, x.vote.round, x.vote.block))
      && (x.vote.kind.PrevoteType? ==>
            p.validAfter(ChainBefore(p, chain, x.vote.height), x.vote.block.hash.value))
  }

  ghost predicate SentBacked(p: Params, s: RoundState) {
    forall x :: x in s.sent ==> Backed(p, s.chain, x)
  }

  /** `y` prevotes for something else, in a later round of the same height, than the block `x` precommitted. */
  ghost predicate Departs(x: Vote, y: Vote) {
    && x.kind.PrecommitType? && y.kind.PrevoteType? && x.height == y.height && x.round < y.round
    && x.block.hash.Some? && y.block.hash != x.block.hash
  }

  ghost predicate SentReleased(p: Params, s: RoundState) {
    forall x, y :: x in s.sent && y in s.sent && Departs(x.vote, y.vote) ==>
      Released(ValsAt(p, s.chain, y.vote.height), y.basis, y.vote.height, x.vote.round, y.vote.round, x.vote.block.hash)
  }

  /** A precommit of this height is still locked, or the node has seen a newer polka for something else. */
  ghost predicate Bound(p: Params, s: RoundState, x: Vote) {
    || (s.lockedBlock == x.block.hash && x.round <= s.lockedRound)
    || Released(p.valsAfter(s.chain), s.seen, s.height, x.round, s.round, x.block.hash)
  }

  ghost predicate LockMemory(p: Params, s: RoundState) {
    forall x :: x in s.sent && x.vote.kind.PrecommitType? && x.vote.height == s.height && x.vote.block.hash.Some? ==>
      Bound(p, s, x.vote)
  }

  ghost predicate Committed(vals: ValidatorSet, votes: set<Vote>, h: int, hash: Hash) {
    exists r: int, b: BlockID :: b.hash == Some(hash) && Quorum(vals, votes, PrecommitType, h, r, b)
  }

  /** Every decided block has +2/3 precommits of its height's validators among the votes seen, and was valid. */
  ghost predicate DecidedBacked(p: Params, chain: seq<Hash>, seen: set<Vote>) {
    forall i :: 0 <= i < |chain| ==>
      Committed(p.valsAfter(chain[..i]), seen, p.initialHeight + i, chain[i]) && p.validAfter(chain[..i], chain[i])
  }

  ghost predicate QuorumForInvalid(p: Params, s: RoundState, kind: VoteType) {
    exists r: int, b: BlockID :: b.hash.Some? && !p.validAfter(s.chain, b.hash.value)
                                 && Quorum(p.valsAfter(s.chain), s.seen, kind, s.height, r, b)
  }

  /** The node holds the block more than two thirds committed, but under another part set header. */
  ghost predicate HoldsOtherParts(p: Params, s: RoundState) {
    exists r: int, b: BlockID :: b.hash.Some? && s.proposalBlock == b.hash && s.proposalParts != Some(b.parts)
                                 && Quorum(p.valsAfter(s.chain), s.seen, PrecommitType, s.height, r, b)
  }

  /** The only panics that can happen. */
  ghost predicate PanicKnown(p: Params, s: RoundState) {
    match s.panic
    case None => true
    case Some(PolkaForInvalidBlock) => QuorumForInvalid(p, s, PrevoteType)
    case Some(CommitOfInvalidBlock) => QuorumForInvalid(p, s, PrecommitType)
    case Some(CommitPartsMismatch) => HoldsOtherParts(p, s)
    case Some(NoLastCommit) => s.chain == [] && s.step == NewHeight
    case Some(_) => false
  }

  ghost predicate SentOk(p: Params, s: RoundState) {
    SentPlaced(p, s) && SentUnique(s.sent) && SentBacked(p, s) && SentReleased(p, s) && LockMemory(p, s)
  }

  ghost predicate NodeOk(p: Params, s: RoundState) {
    && ParamsOk(p) && Shape(p, s) && VotesOk(s.votes, s.seen) && TimeoutsOk(s)
    && LockJustified(p, s) && ValidJustified(s)
    && SentOk(p, s)
    && DecidedBacked(p, s.chain, s.seen) && PanicKnown(p, s)
  }

  // --- what one input may change -------------------------------------------

  /** (Height, Round, Step) never goes back. */
  predicate Forward(s: RoundState, s': RoundState) {
    || s.height < s'.height
    || (s.height == s'.height && s.round < s'.round)
    || (s.height == s'.height && s.round == s'.round && Rank(s.step) <= Rank(s'.step))
  }

  /** Within a height a majority, once seen, stays. */
  ghost predicate MajoritiesStay(hv: HeightVotes, hv': HeightVotes) {
    forall r: int, k: VoteType :: TwoThirdsMajority(VoteSetAt(hv, r, k)).Some? ==>
      TwoThirdsMajority(VoteSetAt(hv', r, k)) == TwoThirdsMajority(VoteSetAt(hv, r, k))
  }

  /** Within a height a lock is dropped, moved or renewed only on a polka of a round above it. */
  ghost predicate LockKept(s: RoundState, s': RoundState) {
    || s.lockedBlock.None?
    || (s'.lockedBlock == s.lockedBlock && s'.lockedRound == s.lockedRound)
    || LockOverridden(s, s')
  }

  /** The majority `b` of round `r`'s prevotes is above the lock of `s` and explains the lock of `s'`. */
  predicate Overrides(s: RoundState, s': RoundState, r: int, b: BlockID) {
    && s.lockedRound < r <= s'.round && TwoThirdsMajority(Prevotes(s'.votes, r)) == Some(b)
    && ((s'.lockedBlock == s.lockedBlock && s.lockedRound < s'.lockedRound) || b.hash != s.lockedBlock)
  }

  ghost predicate LockOverridden(s: RoundState, s': RoundState) {
    exists r: int, b: BlockID :: Overrides(s, s', r, b)
  }

  ghost predicate Evolves(s: RoundState, s': RoundState) {
    && Forward(s, s')
    && s.chain <= s'.chain && s.seen <= s'.seen && s.sent <= s'.sent
    && (s.height == s'.height ==> s'.chain == s.chain && MajoritiesStay(s.votes, s'.votes) && LockKept(s, s'))
    && (s.height != s'.height ==> s.height < s'.height)
  }

  lemma EvolvesTrans(s: RoundState, s1: RoundState, s2: RoundState)
    requires Evolves(s, s1) && Evolves(s1, s2)
    ensures Evolves(s, s2)
  {
    if s.height == s2.height {
      assert s.chain == s1.chain == s2.chain;
      if s.lockedBlock.Some? && !(s1.lockedBlock == s.lockedBlock && s1.lockedRound == s.lockedRound) {
        var r: int, b: BlockID :| Overrides(s, s1, r, b);
        assert TwoThirdsMajority(VoteSetAt(s2.votes, r, PrevoteType)) == Some(b);
        if b.hash == s.lockedBlock && !(s2.lockedBlock == s1.lockedBlock && s2.lockedRound == s1.lockedRound) {
          var r2: int, b2: BlockID :| Overrides(s1, s2, r2, b2);
          assert Overrides(s, s2, r2, b2);
        } else {
          assert Overrides(s, s2, r, b);
        }
      } else if LockOverridden(s1, s2) {
        var r: int, b: BlockID :| Overrides(s1, s2, r, b);
        assert s.lockedBlock.Some? ==> Overrides(s, s2, r, b);
      }
    }
  }
}
