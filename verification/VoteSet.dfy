/**
 The vote counter for one height, round and vote type: the canonical vote per
 validator, the per-block tallies, and the first +2/3 majority seen.  A
 conflicting vote is counted only for a block some peer has claimed a majority
 for.
 */
module VoteSets {
  import opened Basics
  import opened Validators

  type Hash = nat
  type Parts = nat
  type Peer = nat

  /** A block id: no hash stands for a vote for nil, part-set header 0 for the empty header. */
  datatype BlockID = BlockID(hash: Option<Hash>, parts: Parts)

  const NIL_ID := BlockID(None, 0)

  datatype VoteType = PrevoteType | PrecommitType

  datatype Vote = Vote(kind: VoteType, height: int, round: int, address: Address, block: BlockID)

  datatype BlockVotes = BlockVotes(peerMaj23: bool, voters: set<Address>, sum: nat)

  datatype VoteSet = VoteSet(
    height: int,
    round: int,
    kind: VoteType,
    vals: ValidatorSet,
    votes: map<Address, BlockID>,
    sum: nat,
    maj23: Option<BlockID>,
    byBlock: map<BlockID, BlockVotes>,
    peerMaj23s: map<Peer, BlockID>)

  datatype AddResult = AddResult(voteSet: VoteSet, added: bool, conflict: Option<BlockID>)

  function NewVoteSet(height: int, round: int, kind: VoteType, vals: ValidatorSet): (vs: VoteSet) {
    VoteSet(height, round, kind, vals, map[], 0, None, map[], map[])
  }

  function HasTwoThirdsMajority(vs: Option<VoteSet>): bool {
    vs.Some? && vs.value.maj23.Some?
  }

  function TwoThirdsMajority(vs: Option<VoteSet>): Option<BlockID> {
    if vs.Some? then vs.value.maj23 else None
  }

  predicate HasTwoThirdsAny(vs: Option<VoteSet>) {
    vs.Some? && vs.value.sum > TotalPower(vs.value.vals) * 2 / 3
  }

  predicate HasAll(vs: Option<VoteSet>) {
    vs.Some? && vs.value.sum == TotalPower(vs.value.vals)
  }

  function VotersFor(vs: VoteSet, b: BlockID): set<Address> {
    if b in vs.byBlock then vs.byBlock[b].voters else {}
  }

  predicate Known(vs: VoteSet, a: Address, b: BlockID) {
    (a in vs.votes && vs.votes[a] == b) || a in VotersFor(vs, b)
  }

  /** Power of the validator GetByIndex finds; 0 if the address is unknown. */
  function PowerAt(vals: ValidatorSet, a: Address): nat {
    if vals == [] then 0 else if vals[0].address == a then vals[0].power else PowerAt(vals[1..], a)
  }

  /** AddVote: unknown signers, wrong steps, duplicates and bad signatures change nothing. */
  function AddVote(vs: VoteSet, v: Vote, signatureOk: bool): AddResult {
    if v.height != vs.height || v.round != vs.round || v.kind != vs.kind then AddResult(vs, false, None)
    else if !HasAddress(vs.vals, v.address) then AddResult(vs, false, None)
    else if Known(vs, v.address, v.block) then AddResult(vs, false, None)
    else if !signatureOk then AddResult(vs, false, None)
    else AddVerifiedVote(vs, v.address, v.block)
  }

  /** Record the vote in the canonical list, unless a different vote already holds the slot. */
  function PlaceVote(vs: VoteSet, a: Address, b: BlockID): VoteSet {
    if a in vs.votes then
      if vs.maj23 == Some(b) then vs.(votes := vs.votes[a := b]) else vs
    else
      vs.(votes := vs.votes[a := b], sum := vs.sum + PowerAt(vs.vals, a))
  }

  function AddVerifiedVote(vs: VoteSet, a: Address, b: BlockID): AddResult {
    var conflict := if a in vs.votes then Some(vs.votes[a]) else None;
    var vs1 := PlaceVote(vs, a, b);
    if conflict.Some? && (b !in vs.byBlock || !vs.byBlock[b].peerMaj23) then
      AddResult(vs1, false, conflict)
    else
      AddResult(Tally(vs1, a, b), true, conflict)
  }

  /** Add the vote to its block's tally and note the first tally to cross the quorum. */
  function Tally(vs: VoteSet, a: Address, b: BlockID): VoteSet {
    var bv := if b in vs.byBlock then vs.byBlock[b] else BlockVotes(false, {}, 0);
    var bv' := if a in bv.voters then bv
               else bv.(voters := bv.voters + {a}, sum := bv.sum + PowerAt(vs.vals, a));
    var vs1 := vs.(byBlock := vs.byBlock[b := bv']);
    if !IsQuorum(vs.vals, bv.sum) && IsQuorum(vs.vals, bv'.sum) && vs.maj23.None? then
      vs1.(maj23 := Some(b), votes := map v | v in vs.votes.Keys + bv'.voters :: if v in bv'.voters then b else vs.votes[v])
    else
      vs1
  }

  /** A peer claims a majority: from then on conflicting votes for that block are counted. */
  function SetPeerMaj23(vs: VoteSet, peer: Peer, b: BlockID): VoteSet {
    if peer in vs.peerMaj23s then vs
    else
      var vs1 := vs.(peerMaj23s := vs.peerMaj23s[peer := b]);
      var bv := if b in vs.byBlock then vs.byBlock[b] else BlockVotes(false, {}, 0);
      vs1.(byBlock := vs.byBlock[b := bv.(peerMaj23 := true)])
  }

  // --- what a vote set promises -------------------------------------------

  /**
   The counters are the power of the voters recorded, every canonical vote is
   also in its block's tally, and a majority is known exactly when some tally
   holds more than two thirds of the power.
   */
  ghost predicate Valid(vs: VoteSet) {
    Distinct(vs.vals) && Counted(vs) && Listed(vs) && MajorityKnown(vs)
  }

  ghost predicate Counted(vs: VoteSet) {
    && vs.sum == PowerOf(vs.vals, vs.votes.Keys)
    && (forall b :: b in vs.byBlock ==> vs.byBlock[b].sum == PowerOf(vs.vals, vs.byBlock[b].voters))
  }

  ghost predicate Listed(vs: VoteSet) {
    && (forall b :: b in vs.byBlock ==> vs.byBlock[b].voters <= vs.votes.Keys)
    && (forall a :: a in vs.votes ==> a in VotersFor(vs, vs.votes[a]) || vs.maj23 == Some(vs.votes[a]))
  }

  ghost predicate MajorityKnown(vs: VoteSet) {
    && (vs.maj23.Some? ==> IsQuorum(vs.vals, PowerOf(vs.vals, VotersFor(vs, vs.maj23.value))))
    && (vs.maj23.None? ==> forall b :: b in vs.byBlock ==> !IsQuorum(vs.vals, vs.byBlock[b].sum))
  }

  /** Everything of `vs` survives in `vs'`: tallies only grow and the first majority is never replaced. */
  ghost predicate Grows(vs: VoteSet, vs': VoteSet) {
    && vs'.vals == vs.vals && vs'.height == vs.height && vs'.round == vs.round && vs'.kind == vs.kind
    && (forall b :: VotersFor(vs, b) <= VotersFor(vs', b))
    && (vs.maj23.Some? ==> vs'.maj23 == vs.maj23)
    && vs.sum <= vs'.sum
  }

  lemma {:induction false} PowerAtIndex(vals: ValidatorSet, i: nat)
    requires Distinct(vals) && i < |vals|
    ensures PowerAt(vals, vals[i].address) == vals[i].power
  {
    if i > 0 {
      assert vals[0].address != vals[i].address;
      assert vals[1..][i - 1] == vals[i];
      PowerAtIndex(vals[1..], i - 1);
    }
  }

  lemma PowerAddAddress(vals: ValidatorSet, who: set<Address>, a: Address)
    requires Distinct(vals) && HasAddress(vals, a) && a !in who
    ensures PowerOf(vals, who + {a}) == PowerOf(vals, who) + PowerAt(vals, a)
  {
    var i :| 0 <= i < |vals| && vals[i].address == a;
    PowerAddOne(vals, who, i);
    PowerAtIndex(vals, i);
  }

  lemma PlaceVoteSum(vs: VoteSet, a: Address, b: BlockID)
    requires Valid(vs) && HasAddress(vs.vals, a)
    ensures PlaceVote(vs, a, b).sum == PowerOf(vs.vals, PlaceVote(vs, a, b).votes.Keys)
    ensures PlaceVote(vs, a, b).votes.Keys == vs.votes.Keys + {a}
  {
    if a in vs.votes {
      assert vs.votes[a := b].Keys == vs.votes.Keys;
    } else {
      PowerAddAddress(vs.vals, vs.votes.Keys, a);
      assert vs.votes[a := b].Keys == vs.votes.Keys + {a};
    }
  }

  /** Tally adds the voter to one tally and touches no other. */
  lemma TallyShape(vs: VoteSet, a: Address, b: BlockID)
    ensures var vs' := Tally(vs, a, b);
            && vs'.byBlock.Keys == vs.byBlock.Keys + {b}
            && vs'.byBlock[b].voters == VotersFor(vs, b) + {a}
            && (forall c :: c in vs.byBlock && c != b ==> vs'.byBlock[c] == vs.byBlock[c])
            && vs'.sum == vs.sum && vs'.vals == vs.vals
  {
    var bv := if b in vs.byBlock then vs.byBlock[b] else BlockVotes(false, {}, 0);
    if a in bv.voters { assert bv.voters + {a} == bv.voters; }
  }

  lemma TallySum(vs: VoteSet, a: Address, b: BlockID)
    requires Distinct(vs.vals) && HasAddress(vs.vals, a)
    requires b in vs.byBlock ==> vs.byBlock[b].sum == PowerOf(vs.vals, vs.byBlock[b].voters)
    ensures var vs' := Tally(vs, a, b); vs'.byBlock[b].sum == PowerOf(vs.vals, vs'.byBlock[b].voters)
  {
    PowerOfNobody(vs.vals);
    if a !in VotersFor(vs, b) { PowerAddAddress(vs.vals, VotersFor(vs, b), a); }
  }

  lemma TallyKeys(vs: VoteSet, a: Address, b: BlockID)
    requires a in vs.votes && VotersFor(vs, b) <= vs.votes.Keys
    ensures Tally(vs, a, b).votes.Keys == vs.votes.Keys
  {
    var vs' := Tally(vs, a, b);
    if vs'.votes != vs.votes {
      var won := map v | v in vs'.byBlock[b].voters :: b;
      TallyShape(vs, a, b);
      assert won.Keys <= vs.votes.Keys;
    }
  }

  /** What PlaceVote leaves alone. */
  lemma PlaceVoteFrame(vs: VoteSet, a: Address, b: BlockID)
    ensures var vs1 := PlaceVote(vs, a, b);
            && vs1.votes.Keys == vs.votes.Keys + {a} && vs1.byBlock == vs.byBlock && vs1.maj23 == vs.maj23 && vs1.vals == vs.vals
            && vs1.height == vs.height && vs1.round == vs.round && vs1.kind == vs.kind
            && vs.sum <= vs1.sum
            && (forall c :: c in vs.votes && c != a ==> c in vs1.votes && vs1.votes[c] == vs.votes[c])
            && (a in vs.votes && vs1.votes[a] != vs.votes[a] ==> vs.maj23 == Some(b) == Some(vs1.votes[a]))
            && (a !in vs.votes ==> vs1.votes[a] == b)
  {
  }

  /** Tally sets the majority only when it is the first one, and then moves its voters over. */
  lemma TallyMajorityShape(vs: VoteSet, a: Address, b: BlockID)
    ensures var vs' := Tally(vs, a, b);
            && vs'.height == vs.height && vs'.round == vs.round && vs'.kind == vs.kind
            && (vs.maj23.Some? ==> vs'.maj23 == vs.maj23)
            && (vs'.maj23 != vs.maj23 ==> vs'.maj23 == Some(b) && IsQuorum(vs.vals, vs'.byBlock[b].sum))
            && (vs'.maj23.None? ==> (b in vs.byBlock && IsQuorum(vs.vals, vs.byBlock[b].sum))
                                    || (b !in vs.byBlock && IsQuorum(vs.vals, 0))
                                    || !IsQuorum(vs.vals, vs'.byBlock[b].sum))
            && (forall c :: c in vs.votes ==>
                  c in vs'.votes && (vs'.votes[c] == vs.votes[c] || (c in vs'.byBlock[b].voters && vs'.votes[c] == b)))
            && (forall c :: c in vs'.votes && c !in vs.votes ==> vs'.votes[c] == b && c in vs'.byBlock[b].voters)
  {
  }

  lemma TallyGrows(vs: VoteSet, vs1: VoteSet, a: Address, b: BlockID)
    requires vs1 == PlaceVote(vs, a, b)
    ensures Grows(vs, Tally(vs1, a, b))
    ensures forall c :: VotersFor(Tally(vs1, a, b), c) == VotersFor(vs, c) + (if c == b then {a} else {})
  {
    hide Tally; hide PlaceVote;
    PlaceVoteFrame(vs, a, b);
    TallyShape(vs1, a, b);
    TallyMajorityShape(vs1, a, b);
  }

  lemma TallyMajority(vs: VoteSet, vs1: VoteSet, a: Address, b: BlockID)
    requires Distinct(vs.vals) && Counted(vs) && MajorityKnown(vs)
    requires HasAddress(vs.vals, a) && vs1 == PlaceVote(vs, a, b)
    ensures MajorityKnown(Tally(vs1, a, b))
  {
    hide Tally; hide PlaceVote; hide PowerOf; hide HasAddress;
    PlaceVoteFrame(vs, a, b);
    TallyShape(vs1, a, b);
    TallyMajorityShape(vs1, a, b);
    TallySum(vs1, a, b);
    PowerMonotone(vs.vals, VotersFor(vs, b), VotersFor(vs, b) + {a});
  }

  lemma TallyListed(vs: VoteSet, vs1: VoteSet, a: Address, b: BlockID)
    requires Listed(vs) && vs1 == PlaceVote(vs, a, b)
    ensures Listed(Tally(vs1, a, b)) && Tally(vs1, a, b).votes.Keys == vs1.votes.Keys
  {
    hide Tally; hide PlaceVote;
    PlaceVoteFrame(vs, a, b);
    TallyKeys(vs1, a, b);
    TallyShape(vs1, a, b);
    TallyMajorityShape(vs1, a, b);
    var vs' := Tally(vs1, a, b);
    assert vs.votes.Keys <= vs1.votes.Keys;
    forall c | c in vs'.votes
      ensures c in VotersFor(vs', vs'.votes[c]) || vs'.maj23 == Some(vs'.votes[c])
    {
      if vs'.votes[c] == vs1.votes[c] && c in vs.votes && vs1.votes[c] == vs.votes[c] {
        assert c in VotersFor(vs, vs.votes[c]) || vs.maj23 == Some(vs.votes[c]);
      }
    }
  }

  lemma TallyValid(vs: VoteSet, vs1: VoteSet, a: Address, b: BlockID)
    requires Valid(vs) && HasAddress(vs.vals, a) && vs1 == PlaceVote(vs, a, b)
    ensures Valid(Tally(vs1, a, b))
  {
    hide Tally; hide PlaceVote; hide PowerOf; hide HasAddress; hide IsQuorum; hide Listed; hide MajorityKnown;
    PlaceVoteFrame(vs, a, b);
    PlaceVoteSum(vs, a, b);
    TallyShape(vs1, a, b);
    TallySum(vs1, a, b);
    TallyListed(vs, vs1, a, b);
    TallyMajority(vs, vs1, a, b);
  }

  /**
   AddVote keeps the counters right, never loses a vote, records exactly the
   votes it reports as added, and always adds a vote that conflicts with nothing.
   */
  lemma AddVoteCounts(vs: VoteSet, v: Vote, signatureOk: bool)
    requires Valid(vs)
    ensures var r := AddVote(vs, v, signatureOk);
            && Valid(r.voteSet) && Grows(vs, r.voteSet)
            && (forall c :: VotersFor(r.voteSet, c) ==
                  VotersFor(vs, c) + (if r.added && c == v.block then {v.address} else {}))
            && (r.added ==> signatureOk && v.height == vs.height && v.round == vs.round && v.kind == vs.kind
                            && HasAddress(vs.vals, v.address) && v.address !in VotersFor(vs, v.block))
            && ((signatureOk && v.height == vs.height && v.round == vs.round && v.kind == vs.kind
                 && HasAddress(vs.vals, v.address) && v.address !in vs.votes) ==> r.added)
  {
    var r := AddVote(vs, v, signatureOk);
    if v.height == vs.height && v.round == vs.round && v.kind == vs.kind
       && HasAddress(vs.vals, v.address) && !Known(vs, v.address, v.block) && signatureOk {
      var vs1 := PlaceVote(vs, v.address, v.block);
      if r.added {
        TallyValid(vs, vs1, v.address, v.block);
        TallyGrows(vs, vs1, v.address, v.block);
      } else {
        PlaceVoteSum(vs, v.address, v.block);
      }
    }
  }

  lemma SetPeerMaj23Counts(vs: VoteSet, peer: Peer, b: BlockID)
    requires Valid(vs)
    ensures var vs' := SetPeerMaj23(vs, peer, b);
            Valid(vs') && Grows(vs, vs') && forall c :: VotersFor(vs', c) == VotersFor(vs, c)
  {
    PowerOfNobody(vs.vals);
    PowerAtMostTotal(vs.vals, {});
  }

  // --- whole histories ------------------------------------------------------

  datatype VoteOp = AddOp(vote: Vote, signatureOk: bool) | ClaimOp(peer: Peer, block: BlockID)

  function ApplyOp(vs: VoteSet, op: VoteOp): VoteSet {
    match op
    case AddOp(v, ok) => AddVote(vs, v, ok).voteSet
    case ClaimOp(peer, b) => SetPeerMaj23(vs, peer, b)
  }

  function AfterOps(vs: VoteSet, ops: seq<VoteOp>): VoteSet {
    if ops == [] then vs else ApplyOp(AfterOps(vs, ops[..|ops| - 1]), ops[|ops| - 1])
  }

  /** The validator's signed vote for the block was among those handed in. */
  ghost predicate Cast(vs: VoteSet, ops: seq<VoteOp>, a: Address, b: BlockID) {
    AddOp(Vote(vs.kind, vs.height, vs.round, a, b), true) in ops
  }

  ghost predicate Faithful(vs: VoteSet, ops: seq<VoteOp>, now: VoteSet) {
    && Valid(now) && Grows(vs, now)
    && (forall a: Address, b: BlockID :: a in VotersFor(now, b) ==> Cast(vs, ops, a, b))
    && (forall a: Address :: a in now.votes ==> Cast(vs, ops, a, now.votes[a]))
  }

  lemma NewVoteSetValid(height: int, round: int, kind: VoteType, vals: ValidatorSet)
    requires Distinct(vals)
    ensures var vs := NewVoteSet(height, round, kind, vals); Valid(vs) && Faithful(vs, [], vs)
  {
    PowerOfNobody(vals);
    assert NewVoteSet(height, round, kind, vals).votes.Keys == {};
  }

  lemma VotesFollow(vs: VoteSet, v: Vote, signatureOk: bool, a: Address)
    requires a in AddVote(vs, v, signatureOk).voteSet.votes
    ensures var b := AddVote(vs, v, signatureOk).voteSet.votes[a];
            || (a in vs.votes && vs.votes[a] == b)
            || a in VotersFor(vs, b)
            || (a == v.address && b == v.block && signatureOk && v.height == vs.height && v.round == vs.round && v.kind == vs.kind)
  {
    hide IsQuorum; hide PowerAt;
  }

  lemma StepFaithful(vs: VoteSet, ops: seq<VoteOp>, now: VoteSet, op: VoteOp)
    requires Faithful(vs, ops, now)
    ensures Faithful(vs, ops + [op], ApplyOp(now, op))
  {
    var next := ApplyOp(now, op);
    match op
    case AddOp(v, ok) =>
      AddVoteCounts(now, v, ok);
      forall a: Address | a in next.votes ensures Cast(vs, ops + [op], a, next.votes[a]) { VotesFollow(now, v, ok, a); }
      hide AddVote; hide Valid;
    case ClaimOp(peer, b) =>
      SetPeerMaj23Counts(now, peer, b);
      hide Valid;
  }

  lemma {:induction false} RunFaithful(vs: VoteSet, ops: seq<VoteOp>)
    requires Faithful(vs, [], vs)
    ensures Faithful(vs, ops, AfterOps(vs, ops))
  {
    hide Faithful; hide ApplyOp;
    if ops != [] {
      var k := |ops| - 1;
      RunFaithful(vs, ops[..k]);
      StepFaithful(vs, ops[..k], AfterOps(vs, ops[..k]), ops[k]);
      assert ops[..k] + [ops[k]] == ops;
    }
  }

  /** A validator that votes for one block only has its vote counted, whatever others send. */
  lemma {:induction false} HonestVoteCounts(vs: VoteSet, ops: seq<VoteOp>, a: Address, b: BlockID)
    requires Faithful(vs, [], vs) && HasAddress(vs.vals, a) && Cast(vs, ops, a, b)
    requires forall c: BlockID :: Cast(vs, ops, a, c) ==> c == b
    ensures a in VotersFor(AfterOps(vs, ops), b)
  {
    var k := |ops| - 1;
    var before, prefix := AfterOps(vs, ops[..k]), ops[..k];
    assert ops == prefix + [ops[k]];
    RunFaithful(vs, prefix);
    StepGrows(before, ops[k]);
    assert forall c: BlockID :: Cast(vs, prefix, a, c) ==> Cast(vs, ops, a, c);
    if Cast(vs, prefix, a, b) {
      HonestVoteCounts(vs, prefix, a, b);
    } else {
      AddVoteCounts(before, ops[k].vote, ops[k].signatureOk);
    }
    hide Valid; hide AddVote;
  }

  lemma StepGrows(vs: VoteSet, op: VoteOp)
    requires Valid(vs)
    ensures Grows(vs, ApplyOp(vs, op))
  {
    match op
    case AddOp(v, ok) => AddVoteCounts(vs, v, ok);
    case ClaimOp(peer, b) => SetPeerMaj23Counts(vs, peer, b);
  }

  /**
   The majority a vote set reports is real: validators with more than two thirds
   of the power cast that vote.  And it is not missed: once validators with that
   much power, each voting for one block only, cast a vote, there is a majority.
   */
  lemma MajorityIsReal(vs: VoteSet, ops: seq<VoteOp>)
    requires Faithful(vs, [], vs)
    ensures var now := AfterOps(vs, ops);
            now.maj23.Some? ==>
              exists who: set<Address> :: IsQuorum(vs.vals, PowerOf(vs.vals, who))
                                          && forall a :: a in who ==> Cast(vs, ops, a, now.maj23.value)
  {
    RunFaithful(vs, ops);
    var now := AfterOps(vs, ops);
    if now.maj23.Some? {
      var who := VotersFor(now, now.maj23.value);
      assert IsQuorum(vs.vals, PowerOf(vs.vals, who)) && forall a :: a in who ==> Cast(vs, ops, a, now.maj23.value);
    }
  }

  lemma MajorityIsNotMissed(vs: VoteSet, ops: seq<VoteOp>, who: set<Address>, b: BlockID)
    requires Faithful(vs, [], vs) && IsQuorum(vs.vals, PowerOf(vs.vals, who))
    requires forall a :: a in who ==> HasAddress(vs.vals, a) && Cast(vs, ops, a, b)
    requires forall a: Address, c: BlockID :: a in who && Cast(vs, ops, a, c) ==> c == b
    ensures AfterOps(vs, ops).maj23.Some?
  {
    RunFaithful(vs, ops);
    var now := AfterOps(vs, ops);
    forall a | a in who ensures a in VotersFor(now, b) { HonestVoteCounts(vs, ops, a, b); }
    PowerMonotone(vs.vals, who, VotersFor(now, b));
    assert IsQuorum(now.vals, PowerOf(now.vals, VotersFor(now, b)));
    if VotersFor(now, b) == {} { PowerOfNobody(vs.vals); }
    hide Cast; hide AfterOps;
  }
}
