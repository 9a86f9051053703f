/**
 Light client verification of one header against another.  Hashes are
 identified with what they hash, and a signature with the validator who made it.
 */
module LightVerifier {
  import opened Basics
  import opened Validators

  const MAX_INT64 := 0x7fff_ffff_ffff_ffff

  /** `rest` stands for the fields verification does not look at. */
  datatype Header = Header(chainID: nat, height: int, time: int, valsHash: ValidatorSet, nextValsHash: ValidatorSet, rest: nat)

  /** `signer` is the validator under whose key the signature verifies, if any. */
  datatype CommitSig = CommitSig(forBlock: bool, address: Address, signer: Option<Address>)

  datatype Commit = Commit(height: int, round: int, blockHash: Header, parts: nat, sigs: seq<CommitSig>)

  /** `wellFormed` stands for the field-by-field checks of ValidateBasic. */
  datatype LightBlock = LightBlock(header: Header, commit: Commit, vals: ValidatorSet, wellFormed: bool)

  datatype Fraction = Fraction(numerator: nat, denominator: nat)

  datatype Config = Config(trustingPeriod: int, maxClockDrift: int, trustLevel: Fraction, now: int)

  predicate ValidTrustLevel(f: Fraction) {
    !(f.numerator * 3 < f.denominator || f.numerator > f.denominator || f.denominator == 0)
  }

  predicate HeaderExpired(h: Header, c: Config) { !(h.time + c.trustingPeriod > c.now) }

  // --- commits --------------------------------------------------------------

  datatype Tally = Enough | NotEnough | WrongSignature | DoubleVote | Malformed

  /** Signature i belongs to validator i; counting stops as soon as the power is enough. */
  function TallyLight(vals: ValidatorSet, sigs: seq<CommitSig>, needed: int, i: nat, sum: int): Tally
    requires |vals| == |sigs| && i <= |sigs|
    decreases |sigs| - i
  {
    if i == |sigs| then NotEnough
    else if !sigs[i].forBlock then TallyLight(vals, sigs, needed, i + 1, sum)
    else if sigs[i].signer != Some(vals[i].address) then WrongSignature
    else if sum + vals[i].power > needed then Enough
    else TallyLight(vals, sigs, needed, i + 1, sum + vals[i].power)
  }

  lemma TailHas(vals: ValidatorSet, a: Address)
    requires vals != [] && vals[0].address != a
    ensures HasAddress(vals, a) <==> HasAddress(vals[1..], a)
  {
    assert forall k :: 0 < k < |vals| ==> vals[k] == vals[1..][k - 1];
    assert forall k :: 0 <= k < |vals[1..]| ==> vals[1..][k] == vals[k + 1];
  }

  function IndexOf(vals: ValidatorSet, a: Address): (i: nat)
    ensures i <= |vals| && (i < |vals| ==> vals[i].address == a)
    ensures i == |vals| ==> !HasAddress(vals, a)
  {
    if vals == [] then 0
    else if vals[0].address == a then 0
    else
      var i := IndexOf(vals[1..], a);
      assert HasAddress(vals, a) ==> HasAddress(vals[1..], a) by { TailHas(vals, a); }
      i + 1
  }

  /** Signatures are matched to validators by address; a second one from the same validator is an error. */
  function TallyTrusting(vals: ValidatorSet, sigs: seq<CommitSig>, needed: int, i: nat, seen: set<nat>, sum: int): Tally
    requires i <= |sigs|
    decreases |sigs| - i
  {
    if i == |sigs| then NotEnough
    else
      var k := IndexOf(vals, sigs[i].address);
      if !sigs[i].forBlock || k == |vals| then TallyTrusting(vals, sigs, needed, i + 1, seen, sum)
      else if k in seen then DoubleVote
      else if sigs[i].signer != Some(vals[k].address) then WrongSignature
      else if sum + vals[k].power > needed then Enough
      else TallyTrusting(vals, sigs, needed, i + 1, seen + {k}, sum + vals[k].power)
  }

  function CheckCommitLight(vals: ValidatorSet, height: int, c: Commit): Tally {
    if |vals| != |c.sigs| || height != c.height then Malformed
    else TallyLight(vals, c.sigs, TotalPower(vals) * 2 / 3, 0, 0)
  }

  function CheckCommitLightTrusting(vals: ValidatorSet, c: Commit, level: Fraction): Tally {
    if level.denominator == 0 || TotalPower(vals) * level.numerator > MAX_INT64 then Malformed
    else TallyTrusting(vals, c.sigs, TotalPower(vals) * level.numerator / level.denominator, 0, {}, 0)
  }

  /** VerifyCommitLight, as the loop it is. */
  method VerifyCommitLight(vals: ValidatorSet, height: int, c: Commit) returns (t: Tally)
    ensures t == CheckCommitLight(vals, height, c)
  {
    if |vals| != |c.sigs| || height != c.height {
      return Malformed;
    }
    var tallied := 0;
    var needed := TotalPower(vals) * 2 / 3;
    for i := 0 to |c.sigs|
      invariant CheckCommitLight(vals, height, c) == TallyLight(vals, c.sigs, needed, i, tallied)
    {
      if !c.sigs[i].forBlock { continue; }
      if c.sigs[i].signer != Some(vals[i].address) {
        return WrongSignature;
      }
      tallied := tallied + vals[i].power;
      if tallied > needed {
        return Enough;
      }
    }
    return NotEnough;
  }

  /** VerifyCommitLightTrusting, as the loop it is. */
  method VerifyCommitLightTrusting(vals: ValidatorSet, c: Commit, level: Fraction) returns (t: Tally)
    ensures t == CheckCommitLightTrusting(vals, c, level)
  {
    if level.denominator == 0 || TotalPower(vals) * level.numerator > MAX_INT64 {
      return Malformed;
    }
    var tallied := 0;
    var seen: set<nat> := {};
    var needed := TotalPower(vals) * level.numerator / level.denominator;
    for i := 0 to |c.sigs|
      invariant CheckCommitLightTrusting(vals, c, level) == TallyTrusting(vals, c.sigs, needed, i, seen, tallied)
    {
      if !c.sigs[i].forBlock { continue; }
      var k := IndexOf(vals, c.sigs[i].address);
      if k < |vals| {
        if k in seen {
          return DoubleVote;
        }
        if c.sigs[i].signer != Some(vals[k].address) {
          return WrongSignature;
        }
        seen := seen + {k};
        tallied := tallied + vals[k].power;
        if tallied > needed {
          return Enough;
        }
      }
    }
    return NotEnough;
  }

  /** Everybody whose signature for the block is in the commit. */
  function Signers(sigs: seq<CommitSig>): set<Address> {
    set s | s in sigs && s.forBlock && s.signer.Some? :: s.signer.value
  }

  /** `who` are validators whose signatures were counted, and `sum` is their power. */
  ghost predicate Counted(vals: ValidatorSet, sigs: seq<CommitSig>, who: set<Address>, sum: int) {
    who <= Signers(sigs) && sum == PowerOf(vals, who)
  }

  lemma {:induction false} TallyLightSound(vals: ValidatorSet, sigs: seq<CommitSig>, needed: int, i: nat, who: set<Address>,
                                           sum: int)
    requires |vals| == |sigs| && i <= |sigs| && Distinct(vals) && Counted(vals, sigs, who, sum)
    requires forall k :: i <= k < |vals| ==> vals[k].address !in who
    requires TallyLight(vals, sigs, needed, i, sum).Enough?
    ensures PowerOf(vals, Signers(sigs)) > needed
    decreases |sigs| - i
  {
    if i < |sigs| {
      if !sigs[i].forBlock {
        TallyLightSound(vals, sigs, needed, i + 1, who, sum);
      } else {
        var who' := who + {vals[i].address};
        assert sigs[i] in sigs;
        PowerAddOne(vals, who, i);
        PowerMonotone(vals, who', Signers(sigs));
        if sum + vals[i].power <= needed {
          TallyLightSound(vals, sigs, needed, i + 1, who', sum + vals[i].power);
        }
      }
    }
  }

  lemma {:induction false} TallyTrustingSound(vals: ValidatorSet, sigs: seq<CommitSig>, needed: int, i: nat, seen: set<nat>,
                                              who: set<Address>, sum: int)
    requires i <= |sigs| && Distinct(vals) && Counted(vals, sigs, who, sum)
    requires forall k: nat :: k < |vals| && vals[k].address in who ==> k in seen
    requires TallyTrusting(vals, sigs, needed, i, seen, sum).Enough?
    ensures PowerOf(vals, Signers(sigs)) > needed
    decreases |sigs| - i
  {
    if i < |sigs| {
      var k := IndexOf(vals, sigs[i].address);
      if !sigs[i].forBlock || k == |vals| {
        TallyTrustingSound(vals, sigs, needed, i + 1, seen, who, sum);
      } else {
        var who' := who + {vals[k].address};
        assert sigs[i] in sigs;
        PowerAddOne(vals, who, k);
        PowerMonotone(vals, who', Signers(sigs));
        if sum + vals[k].power <= needed {
          TallyTrustingSound(vals, sigs, needed, i + 1, seen + {k}, who', sum + vals[k].power);
        }
      }
    }
  }

  /** A commit that passes carries signatures of a quorum. */
  lemma CommitLightIsQuorum(vals: ValidatorSet, height: int, c: Commit)
    requires Distinct(vals) && CheckCommitLight(vals, height, c).Enough?
    ensures IsQuorum(vals, PowerOf(vals, Signers(c.sigs)))
  {
    PowerOfNobody(vals);
    TallyLightSound(vals, c.sigs, TotalPower(vals) * 2 / 3, 0, {}, 0);
  }

  /** With a trust level of a third or more, a commit that passes carries signatures of more than a third. */
  lemma CommitTrustingIsThird(vals: ValidatorSet, c: Commit, level: Fraction)
    requires Distinct(vals) && ValidTrustLevel(level)
    requires CheckCommitLightTrusting(vals, c, level).Enough?
    ensures 3 * PowerOf(vals, Signers(c.sigs)) > TotalPower(vals)
  {
    PowerOfNobody(vals);
    TallyTrustingSound(vals, c.sigs, TotalPower(vals) * level.numerator / level.denominator, 0, {}, {}, 0);
    AboveThird(TotalPower(vals), level.numerator, level.denominator, PowerOf(vals, Signers(c.sigs)));
  }

  lemma AboveThird(total: nat, num: int, den: int, sum: int)
    requires den > 0 && num * 3 >= den && sum > total * num / den
    ensures 3 * sum > total
  {
    var q := total * num / den;
    assert den * (q + 1) > total * num by { assert total * num == den * q + total * num % den; }
    assert total * (num * 3) >= total * den by { Scale(total, den, num * 3); }
    assert 3 * (den * (q + 1)) > total * den;
    assert den * (3 * (q + 1)) > den * total;
    if 3 * (q + 1) <= total { Scale(den, 3 * (q + 1), total); }
  }

  lemma Scale(k: nat, a: int, b: int)
    requires a <= b
    ensures k * a <= k * b
  {
  }

  // --- headers -----------------------------------------------------------------

  datatype Verdict = Valid | CantBeTrusted | OldHeaderExpired | InvalidHeader | OtherError

  predicate ValidateBasic(b: LightBlock, chainID: nat) {
    b.wellFormed && b.header.chainID == chainID && b.commit.height == b.header.height && b.commit.blockHash == b.header
  }

  predicate NewHeaderOk(trusted: LightBlock, b: LightBlock, c: Config) {
    && ValidateBasic(b, trusted.header.chainID)
    && b.header.height > trusted.header.height
    && b.header.time > trusted.header.time
    && b.header.time < c.now + c.maxClockDrift
    && b.header.valsHash == b.vals
  }

  function VerifyNonAdjacent(trusted: LightBlock, b: LightBlock, c: Config): Verdict {
    if b.header.height == trusted.header.height + 1 then OtherError
    else if HeaderExpired(trusted.header, c) then OldHeaderExpired
    else if !NewHeaderOk(trusted, b, c) then InvalidHeader
    else
      var t := CheckCommitLightTrusting(trusted.vals, b.commit, c.trustLevel);
      if t.NotEnough? then CantBeTrusted
      else if !t.Enough? then OtherError
      else if CheckCommitLight(b.vals, b.header.height, b.commit).Enough? then Valid
      else InvalidHeader
  }

  function VerifyAdjacent(trusted: LightBlock, b: LightBlock, c: Config): Verdict {
    if b.header.height != trusted.header.height + 1 then OtherError
    else if HeaderExpired(trusted.header, c) then OldHeaderExpired
    else if !NewHeaderOk(trusted, b, c) then InvalidHeader
    else if b.header.valsHash != trusted.header.nextValsHash then OtherError
    else if CheckCommitLight(b.vals, b.header.height, b.commit).Enough? then Valid
    else InvalidHeader
  }

  function Verify(trusted: LightBlock, b: LightBlock, c: Config): Verdict {
    if b.header.height != trusted.header.height + 1 then VerifyNonAdjacent(trusted, b, c) else VerifyAdjacent(trusted, b, c)
  }
}
