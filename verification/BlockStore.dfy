/**
 The block store: metas, parts, a hash index, the commits taken from the next
 block, and the commits seen locally, under separate key prefixes of one
 database.
 */
module BlockStore {
  import opened Basics

  type Hash = nat
  type Byte = nat
  type Commit = nat

  datatype Block = Block(height: int, lastCommit: Commit, content: nat)

  /** Block hashing and encoding. */
  datatype Codec = Codec(hash: Block -> Hash, encode: Block -> seq<Byte>, decode: seq<Byte> -> Option<Block>)

  /** Hashing is injective, and decoding undoes encoding. */
  ghost predicate CodecOk(c: Codec) {
    && (forall a: Block, b: Block :: c.hash(a) == c.hash(b) ==> a == b)
    && (forall b: Block :: c.decode(c.encode(b)) == Some(b))
  }

  datatype PartKey = PartKey(height: int, index: int)

  datatype Meta = Meta(hash: Hash, total: nat, height: int)

  datatype Store = Store(
    base: int,
    height: int,
    metas: map<int, Meta>,
    parts: map<PartKey, seq<Byte>>,
    hashes: map<Hash, int>,
    commits: map<int, Commit>,
    seen: map<int, Commit>)

  const EMPTY := Store(0, 0, map[], map[], map[], map[], map[])

  /** A block as it is handed to SaveBlock: with its parts and the commit seen for it. */
  datatype Entry = Entry(block: Block, parts: seq<seq<Byte>>, seen: Commit)

  function Join(parts: seq<seq<Byte>>): seq<Byte> {
    if parts == [] then [] else Join(parts[..|parts| - 1]) + parts[|parts| - 1]
  }

  /** The parts are those of the block; an empty value in the database counts as missing. */
  ghost predicate EntryFits(c: Codec, e: Entry) {
    && Join(e.parts) == c.encode(e.block) && e.block.height > 0
    && forall i :: 0 <= i < |e.parts| ==> e.parts[i] != []
  }

  function WithParts(parts: map<PartKey, seq<Byte>>, h: int, new_: seq<seq<Byte>>): map<PartKey, seq<Byte>> {
    map k | k in parts.Keys + (set i | 0 <= i < |new_| :: PartKey(h, i)) ::
      if k.height == h && 0 <= k.index < |new_| then new_[k.index] else if k in parts then parts[k] else []
  }

  /** SaveBlock refuses a height other than the next one. */
  function Save(c: Codec, st: Store, e: Entry): Option<Store> {
    var h := e.block.height;
    if st.base > 0 && h != st.height + 1 then None
    else Some(Store(if st.base == 0 then h else st.base, h,
                    st.metas[h := Meta(c.hash(e.block), |e.parts|, h)],
                    WithParts(st.parts, h, e.parts),
                    st.hashes[c.hash(e.block) := h],
                    st.commits[h - 1 := e.block.lastCommit],
                    st.seen[h := e.seen]))
  }

  datatype Loaded = Found(block: Block) | Missing | Corrupt

  predicate HasPart(st: Store, h: int, i: int) { PartKey(h, i) in st.parts && st.parts[PartKey(h, i)] != [] }

  function ReadParts(st: Store, h: int, n: nat): seq<Byte> {
    if n == 0 then [] else ReadParts(st, h, n - 1) + if HasPart(st, h, n - 1) then st.parts[PartKey(h, n - 1)] else []
  }

  function Load(c: Codec, st: Store, h: int): Loaded {
    if h !in st.metas || exists i :: 0 <= i < st.metas[h].total && !HasPart(st, h, i) then Missing
    else
      var b := c.decode(ReadParts(st, h, st.metas[h].total));
      if b.None? then Corrupt else Found(b.value)
  }

  function LoadByHash(c: Codec, st: Store, hash: Hash): Loaded {
    if hash !in st.hashes then Missing else Load(c, st, st.hashes[hash])
  }

  // --- pruning -------------------------------------------------------------------

  /** Keys to delete: heights of metas and commits, hashes, and parts. */
  datatype Batch = Batch(heights: set<int>, hashes: set<Hash>, parts: set<PartKey>)

  const NOTHING := Batch({}, {}, {})

  function Erase(st: Store, b: Batch): Store {
    st.(metas := st.metas - b.heights, hashes := st.hashes - b.hashes, commits := st.commits - b.heights,
        seen := st.seen - b.heights, parts := st.parts - b.parts)
  }

  function BatchOf(h: int, m: Meta): Batch { Batch({h}, {m.hash}, set p | 0 <= p < m.total :: PartKey(h, p)) }

  function Join2(a: Batch, b: Batch): Batch { Batch(a.heights + b.heights, a.hashes + b.hashes, a.parts + b.parts) }

  function BatchFor(st: Store, from: int, to: int): Batch
    decreases (to - from)
  {
    if from >= to then NOTHING
    else
      var rest := BatchFor(st, from, to - 1);
      if to - 1 in st.metas then Join2(rest, BatchOf(to - 1, st.metas[to - 1])) else rest
  }

  predicate CanPrune(st: Store, to: int) { 0 < to <= st.height && st.base <= to }

  function Prune(st: Store, to: int): Store { Erase(st, BatchFor(st, st.base, to)).(base := to) }

  // --- the store as an object ------------------------------------------------------

  class BlockDb {
    const c: Codec
    var base: int
    var height: int
    var metas: map<int, Meta>
    var parts: map<PartKey, seq<Byte>>
    var hashes: map<Hash, int>
    var commits: map<int, Commit>
    var seen: map<int, Commit>

    function View(): Store
      reads this
    {
      Store(base, height, metas, parts, hashes, commits, seen)
    }

    constructor (c: Codec)
      ensures this.c == c && View() == EMPTY
    {
      this.c := c;
      base, height, metas, parts, hashes, commits, seen := 0, 0, map[], map[], map[], map[], map[];
    }

    method SaveBlock(e: Entry) returns (ok: bool)
      modifies this
      ensures ok == Save(c, old(View()), e).Some?
      ensures View() == if ok then Save(c, old(View()), e).value else old(View())
    {
      var h := e.block.height;
      if base > 0 && h != height + 1 {
        return false;
      }
      SaveParts(h, e.parts);
      metas := metas[h := Meta(c.hash(e.block), |e.parts|, h)];
      hashes := hashes[c.hash(e.block) := h];
      commits := commits[h - 1 := e.block.lastCommit];
      seen := seen[h := e.seen];
      height := h;
      if base == 0 {
        base := h;
      }
      return true;
    }

    method SaveParts(h: int, new_: seq<seq<Byte>>)
      modifies this`parts
      ensures parts == WithParts(old(parts), h, new_)
    {
      var i := 0;
      while i < |new_|
        invariant 0 <= i <= |new_| && parts == WithParts(old(parts), h, new_[..i])
      {
        OnePartMore(old(parts), h, new_, i);
        parts := parts[PartKey(h, i) := new_[i]];
        i := i + 1;
      }
      assert new_[..i] == new_;
    }

    method LoadBlock(h: int) returns (r: Loaded)
      ensures r == Load(c, View(), h)
    {
      if h !in metas {
        return Missing;
      }
      var buf: seq<Byte> := [];
      var i := 0;
      while i < metas[h].total
        invariant 0 <= i <= metas[h].total && buf == ReadParts(View(), h, i)
        invariant forall k :: 0 <= k < i ==> HasPart(View(), h, k)
      {
        if PartKey(h, i) !in parts || parts[PartKey(h, i)] == [] {
          assert !HasPart(View(), h, i);
          return Missing;
        }
        buf := buf + parts[PartKey(h, i)];
        i := i + 1;
      }
      var b := c.decode(buf);
      return if b.None? then Corrupt else Found(b.value);
    }

    method LoadBlockByHash(hash: Hash) returns (r: Loaded)
      ensures r == LoadByHash(c, View(), hash)
    {
      if hash !in hashes {
        return Missing;
      }
      r := LoadBlock(hashes[hash]);
    }

    method Flush(batch: Batch, newBase: int)
      modifies this
      ensures View() == Erase(old(View()), batch).(base := newBase) && height == old(height)
    {
      base := newBase;
      metas, hashes, parts := metas - batch.heights, hashes - batch.hashes, parts - batch.parts;
      commits, seen := commits - batch.heights, seen - batch.heights;
    }

    /** PruneBlocks; None is its error. */
    method PruneBlocks(to: int) returns (r: Option<nat>)
      modifies this
      ensures r.Some? == CanPrune(old(View()), to)
      ensures r.None? ==> View() == old(View())
      ensures r.Some? ==> View() == Prune(old(View()), to)
      ensures r.Some? && (forall h :: old(base) <= h < to ==> h in old(metas)) ==> r.value == to - old(base)
    {
      hide BatchFor; hide Erase; hide BatchOf;
      if to <= 0 || to > height || to < base {
        return None;
      }
      var pruned: nat := 0;
      var batch := NOTHING;
      var h := base;
      ghost var st, flushed := View(), base;
      StartPruning(st);
      while h < to
        invariant st.base <= flushed <= h <= to && height == st.height
        invariant View() == Erase(st, BatchFor(st, st.base, flushed)).(base := base)
        invariant batch == BatchFor(st, flushed, h)
        invariant (forall x :: st.base <= x < to ==> x in st.metas) ==> pruned == h - st.base
      {
        BatchGrows(st, flushed, h);
        StillThere(st, flushed, h);
        if h in metas {
          batch := Join2(batch, BatchOf(h, metas[h]));
          pruned := pruned + 1;
          if pruned % 1000 == 0 {
            FlushedTwice(st, flushed, h + 1);
            Flush(batch, h);
            batch := NOTHING;
            flushed := h + 1;
            NothingYet(st, flushed);
          }
        }
        h := h + 1;
      }
      FlushedTwice(st, flushed, to);
      Flush(batch, to);
      return Some(pruned);
    }
  }

  lemma OnePartMore(parts: map<PartKey, seq<Byte>>, h: int, new_: seq<seq<Byte>>, i: nat)
    requires i < |new_|
    ensures WithParts(parts, h, new_[..i + 1]) == WithParts(parts, h, new_[..i])[PartKey(h, i) := new_[i]]
  {
    var a, b := WithParts(parts, h, new_[..i + 1]), WithParts(parts, h, new_[..i])[PartKey(h, i) := new_[i]];
    forall k ensures k in a.Keys <==> k in b.Keys { }
    assert a.Keys == b.Keys;
    forall k | k in a ensures a[k] == b[k] { }
  }

  lemma StartPruning(st: Store)
    ensures st == Erase(st, BatchFor(st, st.base, st.base)).(base := st.base) && BatchFor(st, st.base, st.base) == NOTHING
  {
    var e := Erase(st, NOTHING);
    assert e.metas == st.metas && e.hashes == st.hashes && e.parts == st.parts && e.commits == st.commits && e.seen == st.seen;
  }

  lemma NothingYet(st: Store, h: int)
    ensures BatchFor(st, h, h) == NOTHING
  {
  }

  lemma BatchGrows(st: Store, from: int, h: int)
    requires from <= h
    ensures BatchFor(st, from, h + 1) ==
      if h in st.metas then Join2(BatchFor(st, from, h), BatchOf(h, st.metas[h])) else BatchFor(st, from, h)
  {
  }

  lemma {:induction false} BatchBelow(st: Store, from: int, to: int, h: int)
    ensures h in BatchFor(st, from, to).heights <==> from <= h < to && h in st.metas
    decreases (to - from)
  {
    if from < to { BatchBelow(st, from, to - 1, h); }
  }

  lemma StillThere(st: Store, flushed: int, h: int)
    requires flushed <= h
    ensures var now := Erase(st, BatchFor(st, st.base, flushed));
            (h in now.metas <==> h in st.metas) && (h in now.metas ==> now.metas[h] == st.metas[h])
  {
    BatchBelow(st, st.base, flushed, h);
  }

  lemma {:induction false} BatchesJoin(st: Store, a: int, b: int, c: int)
    requires a <= b <= c
    ensures Join2(BatchFor(st, a, b), BatchFor(st, b, c)) == BatchFor(st, a, c)
    decreases c - b
  {
    if b < c { BatchesJoin(st, a, b, c - 1); }
  }

  /** Deleting in two batches is deleting in one. */
  lemma FlushedTwice(st: Store, flushed: int, to: int)
    requires st.base <= flushed <= to
    ensures forall x: int, y: int :: Erase(Erase(st, BatchFor(st, st.base, flushed)).(base := x), BatchFor(st, flushed, to)).(base := y)
              == Erase(st, BatchFor(st, st.base, to)).(base := y)
  {
    BatchesJoin(st, st.base, flushed, to);
    var b1, b2 := BatchFor(st, st.base, flushed), BatchFor(st, flushed, to);
    var once, twice := Erase(st, Join2(b1, b2)), Erase(Erase(st, b1), b2);
    assert once.metas == twice.metas && once.hashes == twice.hashes && once.parts == twice.parts;
    assert once.commits == twice.commits && once.seen == twice.seen;
  }

  // --- what is stored is what was saved ----------------------------------------------

  ghost predicate Stored(c: Codec, st: Store, h: int, e: Entry) {
    && EntryFits(c, e) && e.block.height == h
    && h in st.metas && st.metas[h] == Meta(c.hash(e.block), |e.parts|, h)
    && (forall i :: 0 <= i < |e.parts| ==> PartKey(h, i) in st.parts && st.parts[PartKey(h, i)] == e.parts[i])
    && c.hash(e.block) in st.hashes && st.hashes[c.hash(e.block)] == h
    && h in st.seen && st.seen[h] == e.seen
  }

  ghost predicate NextCommit(st: Store, saved: map<int, Entry>, h: int) {
    h in saved && h + 1 in saved ==> h in st.commits && st.commits[h] == saved[h + 1].block.lastCommit
  }

  ghost predicate StoreOk(c: Codec, st: Store, saved: map<int, Entry>) {
    && (if st.base == 0 then st.height == 0 else 0 < st.base <= st.height)
    && (forall h :: h in saved <==> 0 < st.base <= h <= st.height)
    && (forall h :: h in saved ==> Stored(c, st, h, saved[h]))
    && (forall h :: NextCommit(st, saved, h))
    && (forall h :: h in st.metas ==> h in saved)
    && (forall x :: x in st.hashes ==> st.hashes[x] in saved && c.hash(saved[st.hashes[x]].block) == x)
  }

  lemma EmptyOk(c: Codec)
    ensures StoreOk(c, EMPTY, map[])
  {
  }

  lemma {:induction false} ReadBack(st: Store, h: int, parts: seq<seq<Byte>>, n: nat)
    requires n <= |parts|
    requires forall i :: 0 <= i < |parts| ==> PartKey(h, i) in st.parts && st.parts[PartKey(h, i)] == parts[i] != []
    ensures ReadParts(st, h, n) == Join(parts[..n])
  {
    if n > 0 {
      ReadBack(st, h, parts, n - 1);
      assert parts[..n][..n - 1] == parts[..n - 1];
    }
  }

  /** A stored block loads, by height and by hash. */
  lemma StoredLoads(c: Codec, st: Store, h: int, e: Entry)
    requires CodecOk(c) && Stored(c, st, h, e)
    ensures Load(c, st, h) == LoadByHash(c, st, c.hash(e.block)) == Found(e.block)
  {
    ReadBack(st, h, e.parts, |e.parts|);
    assert e.parts[..|e.parts|] == e.parts;
    forall i | 0 <= i < |e.parts| ensures HasPart(st, h, i) { }
    hide ReadParts; hide Join;
  }

  lemma NewStored(c: Codec, st: Store, e: Entry)
    requires EntryFits(c, e) && Save(c, st, e).Some?
    ensures Stored(c, Save(c, st, e).value, e.block.height, e)
  {
    hide Join;
  }

  lemma StaysStored(c: Codec, st: Store, e: Entry, h: int, e0: Entry)
    requires CodecOk(c) && Save(c, st, e).Some? && Stored(c, st, h, e0) && h != e.block.height
    ensures Stored(c, Save(c, st, e).value, h, e0)
  {
    hide Join;
    assert c.hash(e.block) != c.hash(e0.block);
  }

  lemma SaveKeepsIndexes(c: Codec, st: Store, saved: map<int, Entry>, e: Entry)
    requires StoreOk(c, st, saved) && e.block.height > 0 && Save(c, st, e).Some?
    ensures var st', saved', h := Save(c, st, e).value, saved[e.block.height := e], e.block.height;
            && h !in saved && (forall x :: NextCommit(st', saved', x))
            && (forall x :: x in saved' <==> 0 < st'.base <= x <= st'.height)
            && (forall x :: x in st'.metas ==> x in saved')
            && (forall x :: x in st'.hashes ==> st'.hashes[x] in saved' && c.hash(saved'[st'.hashes[x]].block) == x)
  {
    var st', saved', h := Save(c, st, e).value, saved[e.block.height := e], e.block.height;
    hide Stored; hide WithParts;
    forall x ensures NextCommit(st', saved', x) { assert NextCommit(st, saved, x); }
  }

  lemma SaveOk(c: Codec, st: Store, saved: map<int, Entry>, e: Entry)
    requires CodecOk(c) && StoreOk(c, st, saved) && EntryFits(c, e) && Save(c, st, e).Some?
    ensures StoreOk(c, Save(c, st, e).value, saved[e.block.height := e])
  {
    var saved', h := saved[e.block.height := e], e.block.height;
    var st' := Save(c, st, e).value;
    assert if st'.base == 0 then st'.height == 0 else 0 < st'.base <= st'.height;
    SaveKeepsIndexes(c, st, saved, e);
    hide Join; hide EntryFits; hide WithParts; hide Stored; hide CodecOk; hide Save;
    forall x | x in saved' ensures Stored(c, st', x, saved'[x]) {
      if x == h { NewStored(c, st, e); } else { StaysStored(c, st, e, x, saved[x]); }
    }
  }

  lemma {:induction false} BatchKeys(st: Store, from: int, to: int)
    ensures var b := BatchFor(st, from, to);
            && (forall h :: h in b.heights <==> from <= h < to && h in st.metas)
            && (forall k :: k in b.parts ==> from <= k.height < to)
            && (forall x :: x in b.hashes <==> exists h :: from <= h < to && h in st.metas && st.metas[h].hash == x)
    decreases (to - from)
  {
    if from < to {
      BatchKeys(st, from, to - 1);
      var rest, b, last := BatchFor(st, from, to - 1), BatchFor(st, from, to), to - 1;
      assert b == if last in st.metas then Join2(rest, BatchOf(last, st.metas[last])) else rest;
      forall x ensures x in b.hashes <==> exists h :: from <= h < to && h in st.metas && st.metas[h].hash == x {
        if x in b.hashes {
          if x in rest.hashes {
            var h :| from <= h < to - 1 && h in st.metas && st.metas[h].hash == x;
          } else {
            assert st.metas[last].hash == x;
          }
        }
        if h :| from <= h < to && h in st.metas && st.metas[h].hash == x {
          if h < to - 1 { assert x in rest.hashes; }
        }
      }
    }
  }

  lemma SurvivesPruning(c: Codec, st: Store, saved: map<int, Entry>, to: int, h: int)
    requires CodecOk(c) && StoreOk(c, st, saved) && CanPrune(st, to) && h in saved && to <= h
    ensures Stored(c, Prune(st, to), h, saved[h])
  {
    hide Join; hide BatchFor;
    BatchKeys(st, st.base, to);
    var b := BatchFor(st, st.base, to);
    var e := saved[h];
    assert Stored(c, st, h, e);
    forall x | st.base <= x < to && x in st.metas ensures st.metas[x].hash != c.hash(e.block) {
      assert Stored(c, st, x, saved[x]);
    }
  }

  lemma PruneOk(c: Codec, st: Store, saved: map<int, Entry>, to: int)
    requires CodecOk(c) && StoreOk(c, st, saved) && CanPrune(st, to)
    ensures StoreOk(c, Prune(st, to), map h | h in saved && to <= h :: saved[h])
  {
    var st', saved' := Prune(st, to), map h | h in saved && to <= h :: saved[h];
    hide Join; hide EntryFits;
    forall h | h in saved' ensures Stored(c, st', h, saved'[h]) { SurvivesPruning(c, st, saved, to, h); }
    BatchKeys(st, st.base, to);
    hide BatchFor;
    forall h ensures NextCommit(st', saved', h) { assert NextCommit(st, saved, h); }
    forall h | h in st'.metas ensures h in saved' { }
    forall x | x in st'.hashes ensures st'.hashes[x] in saved' && c.hash(saved'[st'.hashes[x]].block) == x {
      var h := st.hashes[x];
      assert h in saved && Stored(c, st, h, saved[h]);
    }
  }

  // --- whole histories -----------------------------------------------------------------

  datatype Op = SaveOp(entry: Entry) | PruneOp(to: int)

  datatype World = World(st: Store, saved: map<int, Entry>)

  /** A refused save and a failed pruning change nothing. */
  function Step(c: Codec, w: World, op: Op): World {
    match op
    case SaveOp(e) =>
      var r := Save(c, w.st, e);
      if r.None? then w else World(r.value, w.saved[e.block.height := e])
    case PruneOp(to) =>
      if !CanPrune(w.st, to) then w else World(Prune(w.st, to), map h | h in w.saved && to <= h :: w.saved[h])
  }

  function Run(c: Codec, ops: seq<Op>): World {
    if ops == [] then World(EMPTY, map[]) else Step(c, Run(c, ops[..|ops| - 1]), ops[|ops| - 1])
  }

  ghost predicate OpsFit(c: Codec, ops: seq<Op>) {
    forall k :: 0 <= k < |ops| && ops[k].SaveOp? ==> EntryFits(c, ops[k].entry)
  }

  lemma {:induction false} RunOk(c: Codec, ops: seq<Op>)
    requires CodecOk(c) && OpsFit(c, ops)
    ensures StoreOk(c, Run(c, ops).st, Run(c, ops).saved)
  {
    hide StoreOk; hide CodecOk; hide EntryFits;
    if ops == [] {
      EmptyOk(c);
    } else {
      var k := |ops| - 1;
      RunOk(c, ops[..k]);
      var w := Run(c, ops[..k]);
      if ops[k].SaveOp? {
        if Save(c, w.st, ops[k].entry).Some? { SaveOk(c, w.st, w.saved, ops[k].entry); }
      } else if CanPrune(w.st, ops[k].to) {
        PruneOk(c, w.st, w.saved, ops[k].to);
      }
    }
  }

  /**
   Round trip over any history of saves and completed prunings: from base to
   height every block loads as it was saved, by height and by hash, with the
   commit seen for it and the last commit of its successor; no other height and
   no other hash loads.
   */
  lemma StoreRoundTrip(c: Codec, ops: seq<Op>, h: int, hash: Hash)
    requires CodecOk(c) && OpsFit(c, ops)
    ensures var w := Run(c, ops);
            (forall x :: x in w.saved ==> c.hash(w.saved[x].block) != hash) ==> LoadByHash(c, w.st, hash) == Missing
    ensures var w := Run(c, ops);
            if 0 < w.st.base <= h <= w.st.height then
              && h in w.saved && w.saved[h].block.height == h
              && Load(c, w.st, h) == LoadByHash(c, w.st, c.hash(w.saved[h].block)) == Found(w.saved[h].block)
              && h in w.st.seen && w.st.seen[h] == w.saved[h].seen
              && (h < w.st.height ==> h + 1 in w.saved && h in w.st.commits && w.st.commits[h] == w.saved[h + 1].block.lastCommit)
            else Load(c, w.st, h) == Missing
  {
    RunOk(c, ops);
    var w := Run(c, ops);
    hide Run;
    if 0 < w.st.base <= h <= w.st.height {
      StoredLoads(c, w.st, h, w.saved[h]);
      assert NextCommit(w.st, w.saved, h);
    }
    hide ReadParts; hide Join;
  }

  /** A pruning that succeeds counts the blocks between the old base and the new one. */
  lemma PruneCounts(c: Codec, ops: seq<Op>, to: int)
    requires CodecOk(c) && OpsFit(c, ops)
    ensures var st := Run(c, ops).st;
            CanPrune(st, to) && st.base > 0 ==> forall h :: st.base <= h < to ==> h in st.metas
  {
    RunOk(c, ops);
    var w := Run(c, ops);
    hide Run; hide Join;
    forall h | w.st.base <= h < to && CanPrune(w.st, to) && w.st.base > 0 ensures h in w.st.metas {
      assert Stored(c, w.st, h, w.saved[h]);
    }
  }
}
