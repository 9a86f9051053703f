/**
 The file-backed signer.  Its last-sign state lives in memory and in a file that
 is replaced atomically; a crash can come before or after the replacement, and a
 restart reads the file back.  Sign-bytes are the canonical message they encode
 (the encoding is injective), a signature is the sign-bytes it covers.
 */
module Signer {
  import opened Basics

  datatype Kind = Proposal | Prevote | Precommit

  /** What is signed; `payload` stands for the block id and, for a proposal, its proof-of-lock round. */
  datatype Canonical = Canonical(kind: Kind, height: int, round: int, payload: int, timestamp: int, chainID: int)

  datatype Signature = Signature(over: Canonical)

  function StepOf(k: Kind): int {
    match k
    case Proposal => 1
    case Prevote => 2
    case Precommit => 3
  }

  datatype LastSign = LastSign(height: int, round: int, step: int,
                               signBytes: Option<Canonical>, signature: Option<Signature>)

  const EMPTY := LastSign(0, 0, 0, None, None)

  datatype HRS = HRS(height: int, round: int, step: int)

  function HrsOf(c: Canonical): HRS { HRS(c.height, c.round, StepOf(c.kind)) }

  /** Lexicographic order on height, round and step. */
  predicate Before(a: HRS, b: HRS) {
    a.height < b.height
    || (a.height == b.height && (a.round < b.round || (a.round == b.round && a.step < b.step)))
  }

  datatype Check = HeightRegression | RoundRegression | StepRegression | NoSignBytes | MissingSignature | SameHRS | Fresh

  function CheckHRS(l: LastSign, height: int, round: int, step: int): (c: Check)
    ensures c.Fresh? <==> Before(HRS(l.height, l.round, l.step), HRS(height, round, step))
    ensures (c.SameHRS? || c.NoSignBytes? || c.MissingSignature?) <==>
              HRS(l.height, l.round, l.step) == HRS(height, round, step)
    ensures c.SameHRS? ==> l.signBytes.Some? && l.signature.Some?
  {
    if l.height > height then HeightRegression
    else if l.height == height && l.round > round then RoundRegression
    else if l.height == height && l.round == round && l.step > step then StepRegression
    else if l.height == height && l.round == round && l.step == step then
      if l.signBytes.None? then NoSignBytes else if l.signature.None? then MissingSignature else SameHRS
    else Fresh
  }

  /** The timestamp of the last message, if the new one differs from it in nothing else. */
  function OnlyDifferByTimestamp(last: Canonical, new_: Canonical): (r: Option<int>)
    ensures r.Some? <==> exists t :: last == new_.(timestamp := t)
    ensures r.Some? ==> last == new_.(timestamp := r.value)
  {
    if last.(timestamp := 0) == new_.(timestamp := 0) then
      assert last == new_.(timestamp := last.timestamp);
      Some(last.timestamp)
    else None
  }

  /** Where the process dies while a fresh signature is being stored. */
  datatype Crash = NoCrash | BeforeSave | AfterSave

  datatype Outcome =
    | Signed(message: Canonical, signature: Signature)
    | Refused
    | Died

  /** The last-sign state in memory and in the file. */
  datatype Disk = Disk(mem: LastSign, file: LastSign)

  function Save(c: Canonical): LastSign {
    LastSign(c.height, c.round, StepOf(c.kind), Some(c), Some(Signature(c)))
  }

  /** signVote and signProposal: the message comes back with the signature, its timestamp possibly rewritten. */
  function Sign(d: Disk, c: Canonical, keyOk: bool, crash: Crash): (Disk, Outcome) {
    match CheckHRS(d.mem, c.height, c.round, StepOf(c.kind))
    case SameHRS =>
      var last := d.mem.signBytes.value;
      if c == last then (d, Signed(c, d.mem.signature.value))
      else
        var t := OnlyDifferByTimestamp(last, c);
        if t.Some? then (d, Signed(c.(timestamp := t.value), d.mem.signature.value)) else (d, Refused)
    case Fresh =>
      if !keyOk then (d, Refused)
      else
        (match crash
         case BeforeSave => (Disk(d.file, d.file), Died)
         case AfterSave => (Disk(Save(c), Save(c)), Died)
         case NoCrash => (Disk(Save(c), Save(c)), Signed(c, Signature(c))))
    case _ => (d, Refused)
  }

  datatype Op = SignOp(message: Canonical, keyOk: bool, crash: Crash) | Restart

  function Apply(d: Disk, op: Op): (Disk, Outcome) {
    match op
    case SignOp(c, ok, crash) => Sign(d, c, ok, crash)
    case Restart => (Disk(d.file, d.file), Died)
  }

  // --- whole runs ----------------------------------------------------------

  /** The state after a sequence of operations, from a signer that never signed. */
  function After(ops: seq<Op>): Disk {
    if ops == [] then Disk(EMPTY, EMPTY) else Apply(After(ops[..|ops| - 1]), ops[|ops| - 1]).0
  }

  /** What the `k`th operation of the run handed out. */
  function OutcomeAt(ops: seq<Op>, k: nat): Outcome
    requires k < |ops|
  {
    Apply(After(ops[..k]), ops[k]).1
  }

  /** The `k`th operation stored a fresh signature (whether or not the process survived to release it). */
  predicate StoresAt(ops: seq<Op>, k: nat)
    requires k < |ops|
  {
    After(ops[..k + 1]).file != After(ops[..k]).file
  }

  function Place(l: LastSign): HRS { HRS(l.height, l.round, l.step) }

  /** Memory and file agree, and a stored signature covers the stored sign-bytes at the stored place. */
  predicate Sound(d: Disk) {
    && d.mem == d.file
    && (d.mem == EMPTY
        || (d.mem.signBytes.Some? && d.mem.signature == Some(Signature(d.mem.signBytes.value))
            && Place(d.mem) == HrsOf(d.mem.signBytes.value)))
  }

  predicate NotAfter(a: HRS, b: HRS) { a == b || Before(a, b) }

  /** One operation: what is released covers the message as returned and is what the file now holds. */
  lemma ApplySound(d: Disk, op: Op)
    requires Sound(d)
    ensures var (d', out) := Apply(d, op);
            && Sound(d')
            && (d'.file == d.file || Before(Place(d.file), Place(d'.file)))
            && (out.Signed? ==> out.signature.over == out.message && d'.file.signBytes == Some(out.message)
                                && HrsOf(out.message) == Place(d'.file))
  {
  }

  lemma AfterStep(ops: seq<Op>, k: nat)
    requires k < |ops|
    ensures After(ops[..k + 1]) == Apply(After(ops[..k]), ops[k]).0
  {
    assert ops[..k + 1][..k] == ops[..k];
  }

  lemma {:induction false} RunSound(ops: seq<Op>, k: nat)
    requires k <= |ops|
    ensures Sound(After(ops[..k]))
  {
    if k > 0 {
      RunSound(ops, k - 1);
      AfterStep(ops, k - 1);
      ApplySound(After(ops[..k - 1]), ops[k - 1]);
    }
  }

  /** The place in the file never goes back, and while it stays the same so does the whole file. */
  lemma {:induction false} FileMovesForward(ops: seq<Op>, j: nat, k: nat)
    requires j <= k <= |ops|
    ensures NotAfter(Place(After(ops[..j]).file), Place(After(ops[..k]).file))
    ensures Place(After(ops[..j]).file) == Place(After(ops[..k]).file) ==> After(ops[..j]).file == After(ops[..k]).file
    decreases k - j
  {
    hide Apply; hide After;
    if j < k {
      FileMovesForward(ops, j, k - 1);
      RunSound(ops, k - 1);
      AfterStep(ops, k - 1);
      ApplySound(After(ops[..k - 1]), ops[k - 1]);
    }
  }

  /** Every released signature covers the message it comes back with, timestamp rewriting included. */
  lemma ReleasedCoverReturned(ops: seq<Op>, k: nat)
    requires k < |ops| && OutcomeAt(ops, k).Signed?
    ensures OutcomeAt(ops, k).signature.over == OutcomeAt(ops, k).message
  {
    RunSound(ops, k);
    ApplySound(After(ops[..k]), ops[k]);
  }

  /**
   No double signing: over any interleaving of signing, crashes and restarts,
   two released signatures for one height, round and step cover the same bytes.
   */
  lemma NoDoubleSigning(ops: seq<Op>, j: nat, k: nat)
    requires j <= k < |ops| && OutcomeAt(ops, j).Signed? && OutcomeAt(ops, k).Signed?
    requires HrsOf(OutcomeAt(ops, j).message) == HrsOf(OutcomeAt(ops, k).message)
    ensures OutcomeAt(ops, j).signature == OutcomeAt(ops, k).signature
    ensures OutcomeAt(ops, j).message == OutcomeAt(ops, k).message
  {
    RunSound(ops, j);
    RunSound(ops, k);
    ApplySound(After(ops[..j]), ops[j]);
    ApplySound(After(ops[..k]), ops[k]);
    AfterStep(ops, j);
    AfterStep(ops, k);
    FileMovesForward(ops, j + 1, k + 1);
  }

  /** Fresh signatures are stored at strictly increasing places. */
  lemma FreshSignaturesIncrease(ops: seq<Op>, j: nat, k: nat)
    requires j < k < |ops| && StoresAt(ops, j) && StoresAt(ops, k)
    ensures Before(Place(After(ops[..j + 1]).file), Place(After(ops[..k + 1]).file))
  {
    RunSound(ops, k);
    AfterStep(ops, k);
    ApplySound(After(ops[..k]), ops[k]);
    FileMovesForward(ops, j + 1, k);
  }

  /** A signature is released only for a message the signer was asked for, up to its timestamp. */
  lemma ReleasedWasAsked(ops: seq<Op>, k: nat)
    requires k < |ops| && OutcomeAt(ops, k).Signed?
    ensures ops[k].SignOp?
    ensures ops[k].message.(timestamp := OutcomeAt(ops, k).message.timestamp) == OutcomeAt(ops, k).message
  {
    RunSound(ops, k);
  }

  /** A repeated request after a crash gets the stored signature back, whatever its timestamp. */
  lemma RepeatAfterCrash(d: Disk, c: Canonical, t: int)
    requires Sound(d) && Before(Place(d.file), HrsOf(c))
    ensures var d1 := Sign(d, c, true, AfterSave).0;
            Sign(d1, c.(timestamp := t), true, NoCrash) == (d1, Signed(c, Signature(c)))
  {
  }

  /**
   The file keeps no lock: after a precommit, and a restart from the file alone,
   a prevote of any later round is signed whatever it is for.  Keeping to the
   lock across a restart takes the node's log of inputs as well.
   */
  lemma FileKeepsNoLock(d: Disk, c: Canonical, v: Canonical)
    requires Sound(d) && Before(Place(d.file), HrsOf(c)) && c.kind == Precommit
    requires v.kind == Prevote && v.height == c.height && v.round > c.round
    ensures var d1 := Apply(Sign(d, c, true, NoCrash).0, Restart).0;
            Sign(d1, v, true, NoCrash).1 == Signed(v, Signature(v))
  {
  }

  // --- the object ----------------------------------------------------------

  /** A vote or proposal handed to the signer, which sets its signature and may rewrite its timestamp. */
  class Message {
    var body: Canonical
    var signature: Option<Signature>

    constructor (c: Canonical)
      ensures body == c && signature == None
    {
      body, signature := c, None;
    }
  }

  class FilePV {
    var mem: LastSign
    var file: LastSign

    ghost function View(): Disk
      reads this
    {
      Disk(mem, file)
    }

    constructor ()
      ensures View() == After([])
    {
      mem, file := EMPTY, EMPTY;
    }

    /** Load: a restart keeps only what the file holds. */
    method Reload()
      modifies this`mem
      ensures View() == Apply(old(View()), Restart).0
    {
      mem := file;
    }

    method SaveSigned(height: int, round: int, step: int, signBytes: Canonical, sig: Signature, crash: Crash)
      returns (alive: bool)
      modifies this
      ensures alive == crash.NoCrash?
      ensures var saved := LastSign(height, round, step, Some(signBytes), Some(sig));
              View() == if crash.BeforeSave? then Disk(old(file), old(file)) else Disk(saved, saved)
    {
      mem := mem.(height := height);
      mem := mem.(round := round);
      mem := mem.(step := step);
      mem := mem.(signature := Some(sig));
      mem := mem.(signBytes := Some(signBytes));
      if crash.BeforeSave? {
        Reload();
        return false;
      }
      file := mem;
      return crash.NoCrash?;
    }

    /** SignVote and SignProposal: on success the message carries the signature released. */
    method SignMessage(m: Message, keyOk: bool, crash: Crash) returns (ok: bool)
      modifies this, m
      ensures var (d', out) := Sign(old(View()), old(m.body), keyOk, crash);
              && View() == d'
              && ok == out.Signed?
              && (ok ==> m.body == out.message && m.signature == Some(out.signature))
              && (!ok ==> m.body == old(m.body) && m.signature == old(m.signature))
    {
      var c := m.body;
      var check := CheckHRS(mem, c.height, c.round, StepOf(c.kind));
      if check.SameHRS? {
        var last := mem.signBytes.value;
        if c == last {
          m.signature := mem.signature;
          return true;
        }
        var t := OnlyDifferByTimestamp(last, c);
        if t.Some? {
          m.body := m.body.(timestamp := t.value);
          m.signature := mem.signature;
          return true;
        }
        return false;
      }
      if !check.Fresh? || !keyOk {
        return false;
      }
      var sig := Signature(c);
      var alive := SaveSigned(c.height, c.round, StepOf(c.kind), c, sig, crash);
      if !alive {
        return false;
      }
      m.signature := Some(sig);
      return true;
    }
  }
}
