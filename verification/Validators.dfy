/**
 Validator sets as the ordered list the source keeps, voting power summed over
 that list, and the two counting facts every safety argument rests on.
 */
module Validators {
  type Address = nat

  datatype Validator = Validator(address: Address, power: nat)

  type ValidatorSet = seq<Validator>

  /** ValidatorSet never holds one address twice. */
  predicate Distinct(vals: ValidatorSet) {
    forall i, j :: 0 <= i < j < |vals| ==> vals[i].address != vals[j].address
  }

  predicate HasAddress(vals: ValidatorSet, a: Address) {
    exists i :: 0 <= i < |vals| && vals[i].address == a
  }

  /** Voting power held by the validators whose address is in `who`. */
  function PowerOf(vals: ValidatorSet, who: set<Address>): nat {
    if vals == [] then 0
    else (if vals[0].address in who then vals[0].power else 0) + PowerOf(vals[1..], who)
  }

  function TotalPower(vals: ValidatorSet): nat {
    if vals == [] then 0 else vals[0].power + TotalPower(vals[1..])
  }

  /** The quorum test of VoteSet: `sum >= total*2/3 + 1` in integer division. */
  predicate IsQuorum(vals: ValidatorSet, sum: nat) {
    sum >= TotalPower(vals) * 2 / 3 + 1
  }

  lemma {:induction false} PowerAtMostTotal(vals: ValidatorSet, who: set<Address>)
    ensures PowerOf(vals, who) <= TotalPower(vals)
  {
    if vals != [] { PowerAtMostTotal(vals[1..], who); }
  }

  lemma {:induction false} PowerMonotone(vals: ValidatorSet, a: set<Address>, b: set<Address>)
    requires a <= b
    ensures PowerOf(vals, a) <= PowerOf(vals, b)
  {
    if vals != [] { PowerMonotone(vals[1..], a, b); }
  }

  lemma {:induction false} PowerOfNobody(vals: ValidatorSet)
    ensures PowerOf(vals, {}) == 0
  {
    if vals != [] { PowerOfNobody(vals[1..]); }
  }

  /** Inclusion and exclusion for two groups of validators. */
  lemma {:induction false} PowerOverlap(vals: ValidatorSet, a: set<Address>, b: set<Address>)
    ensures PowerOf(vals, a) + PowerOf(vals, b) <= PowerOf(vals, a * b) + TotalPower(vals)
  {
    if vals != [] { PowerOverlap(vals[1..], a, b); }
  }

  /** A group is at most its intersection with another group plus that other group's complement. */
  lemma {:induction false} PowerSplit(vals: ValidatorSet, a: set<Address>, b: set<Address>)
    ensures PowerOf(vals, a) <= PowerOf(vals, a * b) + PowerOf(vals, a - b)
  {
    if vals != [] { PowerSplit(vals[1..], a, b); }
  }

  lemma {:induction false} PowerOfAbsent(vals: ValidatorSet, who: set<Address>, a: Address)
    requires !HasAddress(vals, a)
    ensures PowerOf(vals, who + {a}) == PowerOf(vals, who)
  {
    if vals != [] {
      assert vals[0].address != a;
      forall i | 0 <= i < |vals[1..]| ensures vals[1..][i].address != a { assert vals[i + 1].address != a; }
      PowerOfAbsent(vals[1..], who, a);
    }
  }

  /** One more voter adds exactly that voter's power. */
  lemma {:induction false} PowerAddOne(vals: ValidatorSet, who: set<Address>, i: nat)
    requires Distinct(vals) && i < |vals| && vals[i].address !in who
    ensures PowerOf(vals, who + {vals[i].address}) == PowerOf(vals, who) + vals[i].power
  {
    var a := vals[i].address;
    if i == 0 {
      assert !HasAddress(vals[1..], a) by {
        forall j | 0 <= j < |vals[1..]| ensures vals[1..][j].address != a { assert vals[j + 1].address != a; }
      }
      PowerOfAbsent(vals[1..], who, a);
    } else {
      assert vals[0].address != a;
      assert vals[1..][i - 1] == vals[i];
      PowerAddOne(vals[1..], who, i - 1);
    }
  }

  /**
   Two quorums share a validator outside any group with less than a third of
   the power: the counting step of every agreement argument.
   */
  lemma QuorumsShareCorrect(vals: ValidatorSet, a: set<Address>, b: set<Address>, faulty: set<Address>)
    returns (v: Address)
    requires IsQuorum(vals, PowerOf(vals, a)) && IsQuorum(vals, PowerOf(vals, b))
    requires 3 * PowerOf(vals, faulty) < TotalPower(vals)
    ensures v in a && v in b && v !in faulty
  {
    PowerOverlap(vals, a, b);
    PowerSplit(vals, a * b, faulty);
    PowerMonotone(vals, a * b * faulty, faulty);
    PowerOfNobody(vals);
    assert a * b - faulty != {};
    v :| v in a * b - faulty;
  }

  /** A quorum contains somebody outside a group with less than a third of the power. */
  lemma QuorumHasCorrect(vals: ValidatorSet, a: set<Address>, faulty: set<Address>)
    returns (v: Address)
    requires IsQuorum(vals, PowerOf(vals, a))
    requires 3 * PowerOf(vals, faulty) < TotalPower(vals)
    ensures v in a && v !in faulty
  {
    PowerSplit(vals, a, faulty);
    PowerMonotone(vals, a * faulty, faulty);
    PowerOfNobody(vals);
    assert a - faulty != {};
    v :| v in a - faulty;
  }
}
