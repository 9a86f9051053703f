/**
 Skipping verification: bisection with a cache of the blocks fetched on the way,
 and the trust theorem for the traces it returns.
 */
module LightClient {
  import opened Basics
  import opened Validators
  import opened LightVerifier

  const SKIPPING_NUMERATOR := 9
  const SKIPPING_DENOMINATOR := 16

  datatype Answer = Found(block: LightBlock) | NotFound | NoResponse | HeightTooHigh | Malevolent

  datatype Failure =
    | CannotTrust
    | Unverified(from: int, to: int, verdict: Verdict)
    | BadProvider(from: int, to: int)

  type Provider = int -> Answer

  /** A provider answers with the height it was asked for. */
  ghost predicate AnswersAsAsked(source: Provider) {
    forall h {:trigger source(h)} :: source(h).Found? ==> source(h).block.header.height == h
  }

  /** A chain of blocks, each verified against the one before. */
  ghost predicate Linked(c: Config, trace: seq<LightBlock>) {
    forall k :: 0 <= k < |trace| - 1 ==> Verify(trace[k], trace[k + 1], c) == Valid
  }

  /** Blocks other than the ends come from the provider. */
  ghost predicate IsTrace(c: Config, source: Provider, trusted: LightBlock, target: LightBlock, trace: seq<LightBlock>) {
    && |trace| >= 2 && trace[0] == trusted && trace[|trace| - 1] == target && Linked(c, trace)
    && forall k :: 0 < k < |trace| - 1 ==> FromProvider(source, trace[k])
  }

  ghost predicate FromProvider(source: Provider, b: LightBlock) { source(b.header.height) == Found(b) }

  function Pivot(low: int, high: int): int { low + (high - low) * SKIPPING_NUMERATOR / SKIPPING_DENOMINATOR }

  lemma PivotBetween(low: int, high: int)
    requires high - low >= 2
    ensures low < Pivot(low, high) < high
  {
  }

  lemma ValidIsLater(a: LightBlock, b: LightBlock, c: Config)
    ensures Verify(a, b, c).Valid? ==> a.header.height < b.header.height && a.header.time < b.header.time
    ensures Verify(a, b, c).CantBeTrusted? ==> a.header.height + 1 < b.header.height
  {
    hide CheckCommitLight; hide CheckCommitLightTrusting;
  }

  /** The cache holds the target, then ever lower blocks, each twice, all above the verified one. */
  ghost predicate CacheOk(cache: seq<LightBlock>, low: int) {
    && (forall i, j :: 0 <= i < j < |cache| ==> cache[j].header.height < cache[i].header.height || cache[j] == cache[i])
    && (forall i :: 0 <= i < |cache| ==> low < cache[i].header.height)
  }

  ghost predicate Asked(requests: seq<int>, cache: seq<LightBlock>, low: int, trusted: int, target: int) {
    && Apart(requests, trusted, target)
    && (forall i :: 0 <= i < |requests| ==>
          requests[i] <= low || exists k :: 0 <= k < |cache| && cache[k].header.height == requests[i])
  }

  /** Different numbers strictly between two bounds are no more than fit. */
  lemma FewBetween(s: seq<int>, low: int, high: int)
    requires low < high
    requires forall i, j :: 0 <= i < j < |s| ==> s[i] != s[j]
    requires forall i :: 0 <= i < |s| ==> low < s[i] < high
    ensures |s| <= high - low - 1
  {
    DistinctCount(s);
    SubsetCount((set x | x in s), Between(low, high));
  }

  function Between(low: int, high: int): (r: set<int>)
    requires low < high
    ensures forall x :: x in r <==> low < x < high
    ensures |r| == high - low - 1
    decreases high - low
  {
    if low + 1 == high then {} else Between(low, high - 1) + {high - 1}
  }

  lemma {:induction false} DistinctCount(s: seq<int>)
    requires forall i, j :: 0 <= i < j < |s| ==> s[i] != s[j]
    ensures |set x | x in s| == |s|
  {
    if s != [] {
      var t := s[..|s| - 1];
      DistinctCount(t);
      assert (set x | x in s) == (set x | x in t) + {s[|s| - 1]};
    }
  }

  lemma SubsetCount(a: set<int>, b: set<int>)
    requires a <= b
    ensures |a| <= |b|
  {
    assert b == a + (b - a);
  }

  /** A new pivot lies strictly between the verified block and the lowest cached one, so it was never asked for. */
  lemma PivotIsNew(requests: seq<int>, cache: seq<LightBlock>, low: int, trusted: int, target: int, pivot: int)
    requires cache != [] && CacheOk(cache, low) && Asked(requests, cache, low, trusted, target)
    requires trusted <= low && cache[0].header.height == target && low < pivot < cache[|cache| - 1].header.height
    ensures pivot !in requests && trusted < pivot < target
  {
    assert forall k :: 0 <= k < |cache| ==> cache[k].header.height >= cache[|cache| - 1].header.height;
  }

  lemma AskedMore(requests: seq<int>, cache: seq<LightBlock>, low: int, trusted: int, target: int, b: LightBlock)
    requires Asked(requests, cache, low, trusted, target)
    requires b.header.height !in requests && trusted < b.header.height < target
    ensures Asked(requests + [b.header.height], cache + [b, b], low, trusted, target)
  {
    var cache' := cache + [b, b];
    forall i | 0 <= i < |requests|
      ensures requests[i] <= low || exists k :: 0 <= k < |cache'| && cache'[k].header.height == requests[i]
    {
      if requests[i] > low {
        var k :| 0 <= k < |cache| && cache[k].header.height == requests[i];
        assert cache'[k].header.height == requests[i];
      }
    }
    assert cache'[|cache|].header.height == b.header.height;
  }

  lemma AskedAfterPop(requests: seq<int>, cache: seq<LightBlock>, low: int, trusted: int, target: int, depth: nat)
    requires depth < |cache| && CacheOk(cache, low) && Asked(requests, cache, low, trusted, target)
    ensures Asked(requests, cache[..depth], cache[depth].header.height, trusted, target)
  {
    var low' := cache[depth].header.height;
    forall i | 0 <= i < |requests|
      ensures requests[i] <= low' || exists k :: 0 <= k < depth && cache[..depth][k].header.height == requests[i]
    {
      if requests[i] > low' {
        var k :| 0 <= k < |cache| && cache[k].header.height == requests[i];
        assert cache[..depth][k].header.height == requests[i];
      }
    }
  }

  /** All different, and strictly between two heights. */
  ghost predicate Apart(requests: seq<int>, low: int, high: int) {
    && (forall i, j :: 0 <= i < j < |requests| ==> requests[i] != requests[j])
    && (forall i :: 0 <= i < |requests| ==> low < requests[i] < high)
  }

  ghost predicate Progress(requests: seq<int>, cache: seq<LightBlock>, low: int, trusted: int, target: int) {
    && trusted <= low < target && CacheOk(cache, low) && Asked(requests, cache, low, trusted, target)
    && cache != [] && cache[0].header.height == target
  }

  lemma StartAsked(trusted: LightBlock, target: LightBlock)
    requires trusted.header.height < target.header.height
    ensures Progress([], [target], trusted.header.height, trusted.header.height, target.header.height)
  {
  }

  lemma ProgressAfterPop(requests: seq<int>, cache: seq<LightBlock>, verified: LightBlock, trusted: int, target: int,
                         depth: nat, c: Config)
    requires Progress(requests, cache, verified.header.height, trusted, target) && 0 < depth < |cache|
    requires Verify(verified, cache[depth], c) == Valid
    requires forall k :: 0 <= k < depth ==> Verify(verified, cache[k], c) == CantBeTrusted
    ensures cache[depth].header.height < target
    ensures Progress(requests, cache[..depth], cache[depth].header.height, trusted, target)
    ensures verified.header.height < cache[depth].header.height
  {
    AskedAfterPop(requests, cache, verified.header.height, trusted, target, depth);
    hide Verify; hide Asked;
  }

  /** There is room for another request, and its height is new. */
  lemma RequestFits(requests: seq<int>, cache: seq<LightBlock>, low: int, trusted: int, target: int, pivot: int)
    requires Progress(requests, cache, low, trusted, target) && low < pivot < cache[|cache| - 1].header.height
    ensures Apart(requests + [pivot], trusted, target) && |requests + [pivot]| <= target - trusted - 1
  {
    PivotIsNew(requests, cache, low, trusted, target, pivot);
    FewBetween(requests + [pivot], trusted, target);
  }

  lemma ProgressMore(requests: seq<int>, cache: seq<LightBlock>, low: int, trusted: int, target: int, b: LightBlock)
    requires Progress(requests, cache, low, trusted, target) && low < b.header.height < cache[|cache| - 1].header.height
    ensures Progress(requests + [b.header.height], cache + [b, b], low, trusted, target)
  {
    PivotIsNew(requests, cache, low, trusted, target, b.header.height);
    AskedMore(requests, cache, low, trusted, target, b);
    hide Asked;
  }

  /**
   verifySkipping.  It terminates: between two requests the cursor only moves
   up the cache or the verified height rises, and no height is asked for twice.
   */
  method VerifySkipping(c: Config, source: Provider, trusted: LightBlock, target: LightBlock)
    returns (r: Result<seq<LightBlock>, Failure>, requests: seq<int>)
    requires AnswersAsAsked(source)
    ensures Apart(requests, trusted.header.height, target.header.height)
    ensures requests == [] || |requests| <= target.header.height - trusted.header.height - 1
    ensures r.Ok? ==> IsTrace(c, source, trusted, target, r.value)
    ensures r.Err? && r.error.CannotTrust? ==>
              exists h :: h in requests && (source(h).NotFound? || source(h).NoResponse? || source(h).HeightTooHigh?)
    ensures r.Err? && r.error.BadProvider? ==> r.error.to in requests && source(r.error.to).Malevolent?
    ensures r.Err? && r.error.Unverified? ==> r.error.verdict !in {Valid, CantBeTrusted}
  {
    hide CheckCommitLight; hide CheckCommitLightTrusting; hide Verify;
    hide Progress; hide Pivot;
    requests := [];
    var cache := [target];
    var depth := 0;
    var verified := trusted;
    var trace := [trusted];
    ghost var lo, hi := trusted.header.height, target.header.height;
    if lo < hi { StartAsked(trusted, target); }
    while true
      invariant 0 <= depth < |cache| && cache[0] == target
      invariant lo >= hi ==> requests == [] && cache == [target] && verified == trusted
      invariant Apart(requests, lo, hi) && (requests == [] || |requests| <= hi - lo - 1)
      invariant lo < hi ==> verified.header.height < hi && Progress(requests, cache, verified.header.height, lo, hi)
      invariant forall k :: 0 <= k < depth ==> Verify(verified, cache[k], c) == CantBeTrusted
      invariant trace != [] && trace[0] == trusted && trace[|trace| - 1] == verified && Linked(c, trace)
      invariant forall k :: 0 < k < |trace| ==> FromProvider(source, trace[k])
      invariant forall k :: 0 < k < |cache| ==> FromProvider(source, cache[k])
      decreases hi - lo - 1 - |requests|, hi - verified.header.height, |cache| - depth
    {
      var verdict := Verify(verified, cache[depth], c);
      ValidIsLater(verified, cache[depth], c);
      if verdict == Valid {
        if depth == 0 {
          trace := trace + [target];
          return Ok(trace), requests;
        }
        ProgressAfterPop(requests, cache, verified, lo, hi, depth, c);
        verified := cache[depth];
        cache := cache[..depth];
        depth := 0;
        trace := trace + [verified];
      } else if verdict == CantBeTrusted {
        if depth == |cache| - 1 {
          var pivot := Pivot(verified.header.height, cache[depth].header.height);
          PivotBetween(verified.header.height, cache[depth].header.height);
          RequestFits(requests, cache, verified.header.height, lo, hi, pivot);
          var answer := source(pivot);
          if answer.Found? { ProgressMore(requests, cache, verified.header.height, lo, hi, answer.block); }
          requests := requests + [pivot];
          assert pivot in requests;
          match answer
          case Found(b) =>
            assert FromProvider(source, b);
            cache := cache + [b, b];
          case NotFound => return Err(CannotTrust), requests;
          case NoResponse => return Err(CannotTrust), requests;
          case HeightTooHigh => return Err(CannotTrust), requests;
          case Malevolent => return Err(BadProvider(verified.header.height, pivot)), requests;
        }
        depth := depth + 1;
      } else {
        return Err(Unverified(verified.header.height, cache[depth].header.height, verdict)), requests;
      }
    }
  }

  // --- the trust theorem --------------------------------------------------------

  /**
   The canonical chain from height `first` to `last`, the faulty validators, and
   who signed a precommit for which header, in which round and with which part set.
   */
  datatype Canon = Canon(
    first: int,
    last: int,
    header: int -> Header,
    faulty: set<Address>,
    precommitted: (Address, int, nat, Header) -> bool)

  ghost predicate Covers(k: Canon, h: int) { k.first <= h <= k.last }

  ghost predicate FewFaulty(k: Canon, vals: ValidatorSet) { 3 * PowerOf(vals, k.faulty) < TotalPower(vals) }

  ghost predicate CommittedBy(k: Canon, vals: ValidatorSet, round: int, parts: nat, h: Header, who: set<Address>) {
    IsQuorum(vals, PowerOf(vals, who)) && forall a :: a in who ==> k.precommitted(a, round, parts, h)
  }

  /** Canonical headers are numbered, later ones are later in time, and announce the next validators. */
  ghost predicate Chained(k: Canon) {
    && (forall h :: Covers(k, h) ==> k.header(h).height == h && Distinct(k.header(h).valsHash))
    && (forall h :: Covers(k, h) && h < k.last ==>
          k.header(h).nextValsHash == k.header(h + 1).valsHash && k.header(h).time < k.header(h + 1).time)
  }

  /** As long as a canonical header is unexpired, less than a third of its validators' power is faulty. */
  ghost predicate FaultsBounded(k: Canon, c: Config) {
    forall h :: Covers(k, h) && !HeaderExpired(k.header(h), c) ==>
      FewFaulty(k, k.header(h).valsHash) && FewFaulty(k, k.header(h).nextValsHash)
  }

  /** A correct validator precommits only headers that carry the canonical validators of their height. */
  ghost predicate CorrectSigners(k: Canon) {
    forall a: Address, r: int, p: nat, h: Header :: a !in k.faulty && k.precommitted(a, r, p, h) && Covers(k, h.height) ==>
      h.valsHash == k.header(h.height).valsHash
  }

  /** Consensus commits one header per height, while its validators can be trusted. */
  ghost predicate OneCommit(k: Canon, c: Config) {
    forall r: int, p: nat, h: Header, who: set<Address> ::
      Covers(k, h.height) && CommittedBy(k, k.header(h.height).valsHash, r, p, h, who) ==>
        HeaderExpired(k.header(h.height), c) || h == k.header(h.height)
  }

  /** Signatures cannot be forged. */
  ghost predicate Genuine(k: Canon, b: LightBlock) {
    forall a :: a in Signers(b.commit.sigs) ==> k.precommitted(a, b.commit.round, b.commit.parts, b.commit.blockHash)
  }

  ghost predicate IsCanonical(k: Canon, b: LightBlock) {
    Covers(k, b.header.height) && b.header == k.header(b.header.height) && b.vals == b.header.valsHash
  }

  lemma {:induction false} LaterInTime(k: Canon, c: Config, h1: int, h2: int)
    requires Chained(k) && Covers(k, h1) && Covers(k, h2) && h1 <= h2
    ensures k.header(h1).time <= k.header(h2).time
    ensures !HeaderExpired(k.header(h1), c) ==> !HeaderExpired(k.header(h2), c)
    decreases h2 - h1
  {
    if h1 < h2 { LaterInTime(k, c, h1, h2 - 1); }
  }

  /** More than a third of trusted validators include a correct one. */
  lemma ThirdHasCorrect(vals: ValidatorSet, who: set<Address>, faulty: set<Address>) returns (a: Address)
    requires 3 * PowerOf(vals, who) > TotalPower(vals) && 3 * PowerOf(vals, faulty) < TotalPower(vals)
    ensures a in who && a !in faulty
  {
    PowerSplit(vals, who, faulty);
    PowerMonotone(vals, who * faulty, faulty);
    PowerOfNobody(vals);
    assert who - faulty != {};
    a :| a in who - faulty;
  }

  /** A header verified against a canonical one carries the canonical validators. */
  lemma VerifiedValsCanonical(k: Canon, c: Config, x: LightBlock, y: LightBlock)
    requires Chained(k) && FaultsBounded(k, c) && CorrectSigners(k) && ValidTrustLevel(c.trustLevel)
    requires IsCanonical(k, x) && Genuine(k, y) && Covers(k, y.header.height) && Verify(x, y, c) == Valid
    ensures y.header.valsHash == k.header(y.header.height).valsHash
  {
    if y.header.height != x.header.height + 1 {
      CommitTrustingIsThird(x.vals, y.commit, c.trustLevel);
      var a := ThirdHasCorrect(x.vals, Signers(y.commit.sigs), k.faulty);
      assert k.precommitted(a, y.commit.round, y.commit.parts, y.header);
    }
  }

  /** Trust is passed on: a genuine block verified against a canonical one is canonical. */
  lemma VerifiedIsCanonical(k: Canon, c: Config, x: LightBlock, y: LightBlock)
    requires Chained(k) && FaultsBounded(k, c) && CorrectSigners(k) && OneCommit(k, c) && ValidTrustLevel(c.trustLevel)
    requires IsCanonical(k, x) && Genuine(k, y) && Covers(k, y.header.height) && Verify(x, y, c) == Valid
    ensures IsCanonical(k, y)
  {
    VerifiedValsCanonical(k, c, x, y);
    ValidIsLater(x, y, c);
    LaterInTime(k, c, x.header.height, y.header.height);
    CommitLightIsQuorum(y.vals, y.header.height, y.commit);
    assert CommittedBy(k, k.header(y.header.height).valsHash, y.commit.round, y.commit.parts, y.header, Signers(y.commit.sigs));
  }

  lemma {:induction false} HeightsIncrease(c: Config, trace: seq<LightBlock>, i: nat, j: nat)
    requires Linked(c, trace) && i < j < |trace|
    ensures trace[i].header.height < trace[j].header.height && trace[i].header.time < trace[j].header.time
    decreases j - i
  {
    hide Verify;
    assert Verify(trace[j - 1], trace[j - 1 + 1], c) == Valid;
    ValidIsLater(trace[j - 1], trace[j], c);
    if i < j - 1 { HeightsIncrease(c, trace, i, j - 1); }
  }

  /**
   Light client safety: every block of a trace that starts at a canonical block
   is canonical.
   */
  lemma {:induction false} TraceIsCanonical(k: Canon, c: Config, trace: seq<LightBlock>, i: nat)
    requires Chained(k) && FaultsBounded(k, c) && CorrectSigners(k) && OneCommit(k, c) && ValidTrustLevel(c.trustLevel)
    requires i < |trace| && Linked(c, trace) && IsCanonical(k, trace[0]) && trace[|trace| - 1].header.height <= k.last
    requires forall x :: 0 <= x < |trace| ==> Genuine(k, trace[x])
    ensures IsCanonical(k, trace[i])
  {
    hide Verify; hide Genuine; hide CorrectSigners; hide OneCommit; hide FaultsBounded; hide Chained;
    if i > 0 {
      TraceIsCanonical(k, c, trace, i - 1);
      assert Verify(trace[i - 1], trace[i - 1 + 1], c) == Valid;
      HeightsIncrease(c, trace, i - 1, i);
      if i < |trace| - 1 { HeightsIncrease(c, trace, i, |trace| - 1); }
      VerifiedIsCanonical(k, c, trace[i - 1], trace[i]);
    }
  }
}
