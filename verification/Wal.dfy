/**
 The write-ahead log's framing (checksum, length, data) over bytes, and the
 repair that copies everything before the first error.
 */
module Wal {
  import opened Basics

  type Byte = x: int | 0 <= x < 256
  type Msg = nat

  const TWO32 := 0x1_0000_0000
  const MAX_MSG_SIZE := 1048576 + 24

  /** How messages become bytes; marshalling can refuse a message. */
  datatype Codec = Codec(marshal: Msg -> Option<seq<Byte>>, unmarshal: seq<Byte> -> Option<Msg>, crc: seq<Byte> -> nat)

  /** Unmarshalling undoes marshalling; checksums and lengths fit 32 bits. */
  ghost predicate CodecOk(c: Codec) {
    && (forall d: seq<Byte> :: c.crc(d) < TWO32)
    && (forall m: Msg :: MarshalOk(c, m))
  }

  ghost predicate MarshalOk(c: Codec, m: Msg) {
    c.marshal(m).Some? ==> c.unmarshal(c.marshal(m).value) == Some(m) && |c.marshal(m).value| < TWO32
  }

  // --- big-endian words --------------------------------------------------------------

  function Put32(n: nat): (r: seq<Byte>)
    ensures |r| == 4
  {
    [n / 0x100_0000 % 256, n / 0x1_0000 % 256, n / 0x100 % 256, n % 256]
  }

  function Get32(b: seq<Byte>): nat
    requires |b| == 4
  {
    b[0] as int * 0x100_0000 + b[1] as int * 0x1_0000 + b[2] as int * 0x100 + b[3] as int
  }

  lemma WordRoundTrip(n: nat)
    requires n < TWO32
    ensures Get32(Put32(n)) == n
  {
    var a, b, c := n / 0x100, n / 0x1_0000, n / 0x100_0000;
    assert n == a * 0x100 + n % 256;
    assert a / 0x100 == b && a == b * 0x100 + a % 256;
    assert b / 0x100 == c && b == c * 0x100 + b % 256;
    assert c < 256;
  }

  // --- encoding ------------------------------------------------------------------------

  function Encode(c: Codec, m: Msg): Option<seq<Byte>> {
    if c.marshal(m).None? then None
    else
      var data := c.marshal(m).value;
      var length := |data| % TWO32;
      if length > MAX_MSG_SIZE then None
      else Some(Put32(c.crc(data)) + Put32(length) + data[..length])
  }

  /** Encode, filling the buffer in place. */
  method WriteMessage(c: Codec, m: Msg) returns (r: Option<seq<Byte>>)
    ensures r == Encode(c, m)
  {
    var d := c.marshal(m);
    if d.None? {
      return None;
    }
    var data := d.value;
    var crc := c.crc(data);
    var length := |data| % TWO32;
    if length > MAX_MSG_SIZE {
      return None;
    }
    var msg := new Byte[8 + length];
    PutWord(msg, 0, crc);
    PutWord(msg, 4, length);
    var i := 0;
    while i < length
      invariant 0 <= i <= length
      invariant msg[..4] == Put32(crc) && msg[4..8] == Put32(length) && msg[8..8 + i] == data[..i]
    {
      msg[8 + i] := data[i];
      i := i + 1;
    }
    assert msg[..] == msg[..4] + msg[4..8] + msg[8..8 + length];
    return Some(msg[..]);
  }

  method PutWord(a: array<Byte>, at: nat, n: nat)
    requires at + 4 <= a.Length
    modifies a
    ensures a[at..at + 4] == Put32(n)
    ensures forall k :: 0 <= k < a.Length && !(at <= k < at + 4) ==> a[k] == old(a[k])
  {
    a[at] := n / 0x100_0000 % 256;
    a[at + 1] := n / 0x1_0000 % 256;
    a[at + 2] := n / 0x100 % 256;
    a[at + 3] := n % 256;
  }

  // --- decoding ------------------------------------------------------------------------

  function Zeros(n: nat): (r: seq<Byte>)
    ensures |r| == n
  {
    seq(n, _ => 0)
  }

  datatype ReadResult = Got(bytes: seq<Byte>, rest: seq<Byte>) | EndOfFile

  /** One Read into a buffer of n bytes: at the end of the file it may fill the buffer only in part. */
  function Read(s: seq<Byte>, n: nat): (r: ReadResult)
    ensures r.Got? ==> |r.bytes| == n && |r.rest| <= |s| && (n > 0 ==> |r.rest| < |s|)
  {
    if n == 0 then Got([], s)
    else if s == [] then EndOfFile
    else if |s| < n then Got(s + Zeros(n - |s|), [])
    else Got(s[..n], s[n..])
  }

  datatype Decoded = Message(msg: Msg, rest: seq<Byte>) | Eof | Corrupt

  function Decode(c: Codec, s: seq<Byte>): (r: Decoded)
    ensures r.Message? ==> |r.rest| < |s|
  {
    var r1 := Read(s, 4);
    if r1.EndOfFile? then Eof
    else
      var r2 := Read(r1.rest, 4);
      if r2.EndOfFile? || Get32(r2.bytes) > MAX_MSG_SIZE then Corrupt
      else
        var r3 := Read(r2.rest, Get32(r2.bytes));
        if r3.EndOfFile? || c.crc(r3.bytes) != Get32(r1.bytes) then Corrupt
        else
          var m := c.unmarshal(r3.bytes);
          if m.None? then Corrupt else Message(m.value, r3.rest)
  }

  datatype Log = Log(msgs: seq<Msg>, clean: bool)

  /** Everything decoded up to the first error or the end of the file. */
  function DecodeAll(c: Codec, s: seq<Byte>): Log
    decreases |s|
  {
    match Decode(c, s)
    case Message(m, rest) => var log := DecodeAll(c, rest); Log([m] + log.msgs, log.clean)
    case Eof => Log([], true)
    case Corrupt => Log([], false)
  }

  function EncodeAll(c: Codec, ms: seq<Msg>): Option<seq<Byte>> {
    if ms == [] then Some([])
    else
      var init := EncodeAll(c, ms[..|ms| - 1]);
      var last := Encode(c, ms[|ms| - 1]);
      if init.None? || last.None? then None else Some(init.value + last.value)
  }

  function Repair(c: Codec, s: seq<Byte>): Option<seq<Byte>> { EncodeAll(c, DecodeAll(c, s).msgs) }

  /** A decoder over an open file. */
  class Decoder {
    const c: Codec
    var rest: seq<Byte>

    constructor (c: Codec, s: seq<Byte>)
      ensures this.c == c && rest == s
    {
      this.c, rest := c, s;
    }

    method ReadBytes(n: nat) returns (r: Option<seq<Byte>>)
      modifies this
      ensures match Read(old(rest), n)
              case EndOfFile => r == None && rest == old(rest)
              case Got(bytes, rest') => r == Some(bytes) && rest == rest'
    {
      if n == 0 {
        return Some([]);
      }
      if rest == [] {
        return None;
      }
      var k := if |rest| < n then |rest| else n;
      var bytes := rest[..k] + Zeros(n - k);
      assert k == n ==> bytes == rest[..n];
      assert k < n ==> rest[..k] == rest && rest[k..] == [];
      rest := rest[k..];
      return Some(bytes);
    }

    method Next() returns (r: Decoded)
      modifies this
      ensures r == Decode(c, old(rest))
      ensures r.Message? ==> rest == r.rest
    {
      var b := ReadBytes(4);
      if b.None? {
        return Eof;
      }
      var crc := Get32(b.value);
      b := ReadBytes(4);
      if b.None? {
        return Corrupt;
      }
      var length := Get32(b.value);
      if length > MAX_MSG_SIZE {
        return Corrupt;
      }
      b := ReadBytes(length);
      if b.None? {
        return Corrupt;
      }
      if c.crc(b.value) != crc {
        return Corrupt;
      }
      var m := c.unmarshal(b.value);
      if m.None? {
        return Corrupt;
      }
      return Message(m.value, rest);
    }
  }

  /** `done` was decoded and encoded to `out`; the rest of the source is still to come. */
  ghost predicate Repairing(c: Codec, src: seq<Byte>, rest: seq<Byte>, done: seq<Msg>, out: seq<Byte>) {
    EncodeAll(c, done) == Some(out) && DecodeAll(c, src).msgs == done + DecodeAll(c, rest).msgs
  }

  lemma RepairEnds(c: Codec, src: seq<Byte>, rest: seq<Byte>, done: seq<Msg>, out: seq<Byte>)
    requires Repairing(c, src, rest, done, out) && !Decode(c, rest).Message?
    ensures Repair(c, src) == Some(out)
  {
    hide Decode; hide Encode;
    assert DecodeAll(c, rest).msgs == [];
    assert done + [] == done;
  }

  lemma RepairGoesOn(c: Codec, src: seq<Byte>, rest: seq<Byte>, done: seq<Msg>, out: seq<Byte>)
    requires Repairing(c, src, rest, done, out) && Decode(c, rest).Message?
    ensures var d := Decode(c, rest);
            match Encode(c, d.msg)
            case Some(e) => Repairing(c, src, d.rest, done + [d.msg], out + e)
            case None => Repair(c, src) == None
  {
    hide Encode;
    var d := Decode(c, rest);
    assert DecodeAll(c, rest).msgs == [d.msg] + DecodeAll(c, d.rest).msgs;
    hide Decode;
    assert done + ([d.msg] + DecodeAll(c, d.rest).msgs) == done + [d.msg] + DecodeAll(c, d.rest).msgs;
    assert (done + [d.msg])[..|done|] == done;
    if Encode(c, d.msg).None? { StopsAtRefusal(c, done + [d.msg], DecodeAll(c, d.rest).msgs); }
  }

  /** repairWalFile: decode until the first error, encoding what was decoded. */
  method RepairWalFile(c: Codec, src: seq<Byte>) returns (r: Option<seq<Byte>>)
    ensures r == Repair(c, src)
  {
    var dec := new Decoder(c, src);
    var out: seq<Byte> := [];
    ghost var done: seq<Msg> := [];
    assert Repairing(c, src, src, done, out) by { assert [] + DecodeAll(c, src).msgs == DecodeAll(c, src).msgs; }
    hide Decode; hide Encode; hide Repairing; hide Repair;
    while true
      invariant dec.c == c && Repairing(c, src, dec.rest, done, out)
      decreases |dec.rest|
    {
      ghost var before := dec.rest;
      var d := dec.Next();
      if !d.Message? {
        RepairEnds(c, src, before, done, out);
        return Some(out);
      }
      RepairGoesOn(c, src, before, done, out);
      var e := WriteMessage(c, d.msg);
      if e.None? {
        return None;
      }
      out := out + e.value;
      done := done + [d.msg];
    }
  }

  lemma {:induction false} StopsAtRefusal(c: Codec, a: seq<Msg>, b: seq<Msg>)
    requires EncodeAll(c, a).None?
    ensures EncodeAll(c, a + b).None?
  {
    if b == [] {
      assert a + b == a;
    } else {
      assert (a + b)[..|a + b| - 1] == a + b[..|b| - 1];
      StopsAtRefusal(c, a, b[..|b| - 1]);
    }
  }

  // --- round trips -----------------------------------------------------------------------

  lemma ReadFront(a: seq<Byte>, b: seq<Byte>)
    ensures Read(a + b, |a|) == Got(a, b)
  {
    if |a| == 0 {
      assert a + b == b && a == [];
    } else {
      assert (a + b)[..|a|] == a && (a + b)[|a|..] == b;
    }
  }

  lemma DecodeFrame(c: Codec, data: seq<Byte>, m: Msg, tail: seq<Byte>)
    requires c.crc(data) < TWO32 && |data| <= MAX_MSG_SIZE && c.unmarshal(data) == Some(m)
    ensures Decode(c, Put32(c.crc(data)) + (Put32(|data|) + (data + tail))) == Message(m, tail)
  {
    var w1, w2 := Put32(c.crc(data)), Put32(|data|);
    WordRoundTrip(c.crc(data));
    WordRoundTrip(|data|);
    hide Put32; hide Get32;
    ReadFront(w1, w2 + (data + tail));
    ReadFront(w2, data + tail);
    ReadFront(data, tail);
    hide Read;
  }

  lemma Regroup(a: seq<Byte>, b: seq<Byte>, d: seq<Byte>, t: seq<Byte>)
    ensures a + b + d + t == a + (b + (d + t))
  {
  }

  lemma EncodedIs(c: Codec, m: Msg)
    requires MarshalOk(c, m) && Encode(c, m).Some?
    ensures var data := c.marshal(m).value;
            |data| <= MAX_MSG_SIZE && Encode(c, m).value == Put32(c.crc(data)) + Put32(|data|) + data
  {
    hide Put32;
    var data := c.marshal(m).value;
    assert data[..|data|] == data;
  }

  /** What was encoded decodes, whatever follows it. */
  lemma DecodeEncoded(c: Codec, m: Msg, tail: seq<Byte>)
    requires CodecOk(c) && Encode(c, m).Some?
    ensures Decode(c, Encode(c, m).value + tail) == Message(m, tail)
  {
    assert MarshalOk(c, m);
    hide Decode; hide Put32; hide Read; hide Encode;
    var data := c.marshal(m).value;
    assert c.crc(data) < TWO32;
    EncodedIs(c, m);
    DecodeFrame(c, data, m, tail);
    Regroup(Put32(c.crc(data)), Put32(|data|), data, tail);
    hide CodecOk;
  }

  /** A log of encoded messages followed by any bytes decodes to those messages first, then as the bytes do. */
  lemma {:induction false} DecodeAllEncoded(c: Codec, ms: seq<Msg>, tail: seq<Byte>)
    requires CodecOk(c) && EncodeAll(c, ms).Some?
    ensures var log := DecodeAll(c, EncodeAll(c, ms).value + tail);
            log == Log(ms + DecodeAll(c, tail).msgs, DecodeAll(c, tail).clean)
    decreases |ms|
  {
    hide Encode; hide Decode; hide CodecOk;
    if ms == [] {
      assert [] + tail == tail;
    } else {
      var k := |ms| - 1;
      var a, b := EncodeAll(c, ms[..k]).value, Encode(c, ms[k]).value;
      assert a + b + tail == a + (b + tail);
      DecodeAllEncoded(c, ms[..k], b + tail);
      DecodeEncoded(c, ms[k], tail);
      assert ms[..k] + ([ms[k]] + DecodeAll(c, tail).msgs) == ms + DecodeAll(c, tail).msgs;
    }
  }

  /**
   A repair that succeeds leaves a log that decodes to its end without an error
   and holds exactly the messages decoded from the source before its first error.
   */
  lemma RepairIsClean(c: Codec, s: seq<Byte>)
    requires CodecOk(c) && Repair(c, s).Some?
    ensures DecodeAll(c, Repair(c, s).value) == Log(DecodeAll(c, s).msgs, true)
  {
    var ms := DecodeAll(c, s).msgs;
    DecodeAllEncoded(c, ms, []);
    assert Repair(c, s).value + [] == Repair(c, s).value;
    assert DecodeAll(c, []) == Log([], true);
    assert ms + [] == ms;
  }

  /** Repairing what is clean already, and repairing twice, changes nothing more. */
  lemma RepairTwice(c: Codec, s: seq<Byte>)
    requires CodecOk(c) && Repair(c, s).Some?
    ensures Repair(c, Repair(c, s).value) == Repair(c, s)
  {
    RepairIsClean(c, s);
  }
}
