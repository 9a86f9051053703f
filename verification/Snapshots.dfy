/**
 The snapshot pool of state sync: five maps that index one another and three
 blacklists.  A peer is its ID, 0 being the empty one; hashing is injective.
 */
module Snapshots {
  import opened Basics

  type Peer = nat
  type Byte = nat

  const RECENT_SNAPSHOTS := 10
  const COLON: Byte := 58

  datatype Snapshot = Snapshot(height: nat, format: nat, chunks: nat, hash: seq<Byte>, metadata: seq<Byte>)

  type Key = seq<Byte>

  function Digits(n: nat): seq<Byte> { if n < 10 then [48 + n] else Digits(n / 10) + [48 + n % 10] }

  /** What is hashed into a snapshot's key. */
  function KeyOf(s: Snapshot): Key {
    Digits(s.height) + [COLON] + Digits(s.format) + [COLON] + Digits(s.chunks) + s.hash + s.metadata
  }

  datatype Pool = Pool(
    snapshots: map<Key, Snapshot>,
    peersOf: map<Key, set<Peer>>,
    formats: map<nat, set<Key>>,
    heights: map<nat, set<Key>>,
    keysOf: map<Peer, set<Key>>,
    badFormats: set<nat>,
    badPeers: set<Peer>,
    badSnapshots: set<Key>)

  const EMPTY := Pool(map[], map[], map[], map[], map[], {}, {}, {})

  /** Looking up a missing entry gives the empty set. */
  function Get<K, V>(m: map<K, set<V>>, k: K): set<V> { if k in m then m[k] else {} }

  function Insert<K, V>(m: map<K, set<V>>, k: K, v: V): map<K, set<V>> { m[k := Get(m, k) + {v}] }

  function Remove<K, V>(m: map<K, set<V>>, k: K, v: V): map<K, set<V>> { if k in m then m[k := m[k] - {v}] else m }

  function DropKey(keysOf: map<Peer, set<Key>>, peers: set<Peer>, k: Key): map<Peer, set<Key>> {
    map q | q in keysOf :: if q in peers then keysOf[q] - {k} else keysOf[q]
  }

  predicate Refused(p: Pool, peer: Peer, s: Snapshot) {
    s.format in p.badFormats || peer in p.badPeers || KeyOf(s) in p.badSnapshots || |Get(p.keysOf, peer)| >= RECENT_SNAPSHOTS
  }

  function Add(p: Pool, peer: Peer, s: Snapshot): (bool, Pool) {
    if Refused(p, peer, s) then (false, p)
    else
      var k := KeyOf(s);
      var q := p.(peersOf := Insert(p.peersOf, k, peer), keysOf := Insert(p.keysOf, peer, k));
      if k in p.snapshots then (false, q)
      else (true, q.(snapshots := p.snapshots[k := s], formats := Insert(p.formats, s.format, k),
                     heights := Insert(p.heights, s.height, k)))
  }

  function RemoveSnapshot(p: Pool, k: Key): Pool {
    if k !in p.snapshots then p
    else
      var s := p.snapshots[k];
      p.(snapshots := p.snapshots - {k}, formats := Remove(p.formats, s.format, k), heights := Remove(p.heights, s.height, k),
         keysOf := DropKey(p.keysOf, Get(p.peersOf, k), k), peersOf := p.peersOf - {k})
  }

  /** One turn of removePeer's loop. */
  function Detach(p: Pool, peer: Peer, k: Key): Pool {
    var q := p.(peersOf := Remove(p.peersOf, k, peer));
    if Get(q.peersOf, k) == {} then RemoveSnapshot(q, k) else q
  }

  /** Go iterates over a map's keys in any order: `order` lists them. */
  ghost predicate Lists(order: seq<Key>, keys: set<Key>) {
    && (forall i, j :: 0 <= i < j < |order| ==> order[i] != order[j])
    && (forall k :: k in order <==> k in keys)
  }

  function ForgetAll(p: Pool, order: seq<Key>): Pool {
    if order == [] then p else RemoveSnapshot(ForgetAll(p, order[..|order| - 1]), order[|order| - 1])
  }

  function DetachAll(p: Pool, peer: Peer, order: seq<Key>): Pool {
    if order == [] then p else Detach(DetachAll(p, peer, order[..|order| - 1]), peer, order[|order| - 1])
  }

  function RejectOne(p: Pool, k: Key): Pool { RemoveSnapshot(p.(badSnapshots := p.badSnapshots + {k}), k) }

  function RejectFormatIn(p: Pool, f: nat, order: seq<Key>): Pool { ForgetAll(p.(badFormats := p.badFormats + {f}), order) }

  function RemovePeerIn(p: Pool, peer: Peer, order: seq<Key>): Pool {
    var q := DetachAll(p, peer, order);
    q.(keysOf := q.keysOf - {peer})
  }

  function RejectPeerIn(p: Pool, peer: Peer, order: seq<Key>): Pool {
    if peer == 0 then p else var q := RemovePeerIn(p, peer, order); q.(badPeers := q.badPeers + {peer})
  }

  // --- the invariant -------------------------------------------------------------

  ghost predicate Offers(p: Pool, peer: Peer, k: Key) { peer in Get(p.peersOf, k) }

  /** The peer index is the converse of the snapshots' peers, but for keys already taken from `gone`. */
  ghost predicate Converse(p: Pool, gone: Peer, done: set<Key>) {
    forall peer, k :: Offers(p, peer, k) <==> k in Get(p.keysOf, peer) && !(peer == gone && k in done)
  }

  ghost predicate Indexed(p: Pool) {
    && IndexedBy(p.formats, p.snapshots, (s: Snapshot) => s.format)
    && IndexedBy(p.heights, p.snapshots, (s: Snapshot) => s.height)
    && (forall k :: k in p.snapshots ==> KeyOf(p.snapshots[k]) == k)
  }

  /** Exactly the snapshots some peer offers are pooled; `orphan` may have lost its last peer. */
  ghost predicate Peered(p: Pool, orphan: Option<Key>) {
    && (forall k :: k in p.snapshots && Some(k) != orphan ==> Get(p.peersOf, k) != {})
    && (forall k :: Get(p.peersOf, k) != {} ==> k in p.snapshots)
  }

  ghost predicate Clean(p: Pool) {
    && (forall peer :: |Get(p.keysOf, peer)| <= RECENT_SNAPSHOTS)
    && (forall k :: k in p.snapshots ==> k !in p.badSnapshots && p.snapshots[k].format !in p.badFormats)
    && (forall peer, k :: Offers(p, peer, k) ==> peer !in p.badPeers)
  }

  ghost predicate OkBut(p: Pool, gone: Peer, done: set<Key>, orphan: Option<Key>) {
    Converse(p, gone, done) && Indexed(p) && Peered(p, orphan) && Clean(p)
  }

  ghost predicate PoolOk(p: Pool) { OkBut(p, 0, {}, None) }

  lemma EmptyOk()
    ensures PoolOk(EMPTY)
  {
  }

  lemma NobodyGone(p: Pool, a: Peer, b: Peer, orphan: Option<Key>)
    requires OkBut(p, a, {}, orphan)
    ensures OkBut(p, b, {}, orphan)
  {
    forall peer, k ensures Offers(p, peer, k) <==> k in Get(p.keysOf, peer) {
      assert Offers(p, peer, k) <==> k in Get(p.keysOf, peer) && !(peer == a && k in {});
    }
  }

  lemma SmallerCount<T>(a: set<T>, b: set<T>)
    requires a <= b
    ensures |a| <= |b|
  {
    assert b == a + (b - a);
  }

  /** An index built from the snapshots by some property of theirs. */
  ghost predicate IndexedBy(index: map<nat, set<Key>>, snapshots: map<Key, Snapshot>, prop: Snapshot -> nat) {
    forall f, k :: k in Get(index, f) <==> k in snapshots && prop(snapshots[k]) == f
  }

  lemma InsertIndexes(index: map<nat, set<Key>>, snapshots: map<Key, Snapshot>, prop: Snapshot -> nat, k: Key, s: Snapshot)
    requires IndexedBy(index, snapshots, prop) && k !in snapshots
    ensures IndexedBy(Insert(index, prop(s), k), snapshots[k := s], prop)
  {
    var index' := Insert(index, prop(s), k);
    forall f, x ensures x in Get(index', f) <==> x in snapshots[k := s] && prop(snapshots[k := s][x]) == f {
      assert x in Get(index, f) <==> x in snapshots && prop(snapshots[x]) == f;
    }
  }

  lemma RemoveIndexes(index: map<nat, set<Key>>, snapshots: map<Key, Snapshot>, prop: Snapshot -> nat, k: Key)
    requires IndexedBy(index, snapshots, prop) && k in snapshots
    ensures IndexedBy(Remove(index, prop(snapshots[k]), k), snapshots - {k}, prop)
  {
    var index' := Remove(index, prop(snapshots[k]), k);
    forall f, x ensures x in Get(index', f) <==> x in snapshots - {k} && prop((snapshots - {k})[x]) == f {
      assert x in Get(index, f) <==> x in snapshots && prop(snapshots[x]) == f;
    }
  }

  lemma AddKeepsConverse(p: Pool, peer: Peer, s: Snapshot)
    requires Converse(p, 0, {}) && !Refused(p, peer, s)
    ensures var q := Add(p, peer, s).1;
            && Converse(q, 0, {})
            && forall x, y :: Offers(q, x, y) <==> Offers(p, x, y) || (x == peer && y == KeyOf(s))
  {
    hide Digits; hide KeyOf; hide Refused;
    var q := Add(p, peer, s).1;
    forall x, y ensures Offers(q, x, y) <==> y in Get(q.keysOf, x) {
      assert Offers(p, x, y) <==> y in Get(p.keysOf, x);
    }
  }

  lemma AddKeepsCount(p: Pool, peer: Peer, s: Snapshot, x: Peer)
    requires !Refused(p, peer, s) && |Get(p.keysOf, x)| <= RECENT_SNAPSHOTS
    ensures |Get(Add(p, peer, s).1.keysOf, x)| <= RECENT_SNAPSHOTS
  {
    hide Digits; hide KeyOf;
    assert Add(p, peer, s).1.keysOf == Insert(p.keysOf, peer, KeyOf(s));
  }

  lemma AddKeepsClean(p: Pool, peer: Peer, s: Snapshot)
    requires Clean(p) && !Refused(p, peer, s)
    requires var q := Add(p, peer, s).1;
             forall x, y :: Offers(q, x, y) <==> Offers(p, x, y) || (x == peer && y == KeyOf(s))
    ensures Clean(Add(p, peer, s).1)
  {
    hide Digits; hide KeyOf;
    var q := Add(p, peer, s).1;
    assert q.snapshots == p.snapshots || q.snapshots == p.snapshots[KeyOf(s) := s];
    assert q.badSnapshots == p.badSnapshots && q.badFormats == p.badFormats && q.badPeers == p.badPeers;
    forall x ensures |Get(q.keysOf, x)| <= RECENT_SNAPSHOTS { AddKeepsCount(p, peer, s, x); }
    assert KeyOf(s) !in p.badSnapshots && s.format !in p.badFormats && peer !in p.badPeers;
    hide Offers; hide Add; hide Get; hide Refused;
  }

  lemma AddKeepsIndexed(p: Pool, peer: Peer, s: Snapshot)
    requires Indexed(p) && !Refused(p, peer, s)
    ensures Indexed(Add(p, peer, s).1)
  {
    hide Digits; hide KeyOf; hide Refused;
    if KeyOf(s) !in p.snapshots {
      InsertIndexes(p.formats, p.snapshots, (x: Snapshot) => x.format, KeyOf(s), s);
      InsertIndexes(p.heights, p.snapshots, (x: Snapshot) => x.height, KeyOf(s), s);
    }
    hide IndexedBy; hide Insert;
  }

  lemma AddKeepsPeered(p: Pool, peer: Peer, s: Snapshot)
    requires Peered(p, None) && !Refused(p, peer, s)
    ensures Peered(Add(p, peer, s).1, None)
  {
    hide Digits; hide KeyOf; hide Refused;
    var k := KeyOf(s);
    var q := Add(p, peer, s).1;
    assert peer in Get(q.peersOf, k);
    assert forall y :: y != k ==> Get(q.peersOf, y) == Get(p.peersOf, y);
    assert k in q.snapshots && forall y :: y != k ==> (y in q.snapshots <==> y in p.snapshots);
    hide Add; hide Get;
  }

  lemma AddOk(p: Pool, peer: Peer, s: Snapshot)
    requires PoolOk(p)
    ensures PoolOk(Add(p, peer, s).1)
  {
    hide Digits; hide KeyOf; hide Converse; hide Clean; hide Indexed; hide Peered;
    if !Refused(p, peer, s) {
      AddKeepsConverse(p, peer, s);
      AddKeepsClean(p, peer, s);
      AddKeepsIndexed(p, peer, s);
      AddKeepsPeered(p, peer, s);
    }
  }

  lemma RemoveSnapshotOk(p: Pool, k: Key, gone: Peer, done: set<Key>, orphan: Option<Key>)
    requires OkBut(p, gone, done, orphan) && (orphan == None || orphan == Some(k))
    ensures var q := RemoveSnapshot(p, k);
            && OkBut(q, gone, done, None) && q.snapshots == p.snapshots - {k}
            && forall x, y :: Offers(q, x, y) <==> Offers(p, x, y) && y != k
  {
    hide Digits; hide KeyOf;
    var q := RemoveSnapshot(p, k);
    if k in p.snapshots {
      forall x, y ensures Offers(q, x, y) <==> Offers(p, x, y) && y != k { }
      assert Converse(q, gone, done) by {
        forall x, y ensures Offers(q, x, y) <==> y in Get(q.keysOf, x) && !(x == gone && y in done) {
          assert Offers(p, x, y) <==> y in Get(p.keysOf, x) && !(x == gone && y in done);
        }
      }
      assert Indexed(q) by {
        RemoveIndexes(p.formats, p.snapshots, (x: Snapshot) => x.format, k);
        RemoveIndexes(p.heights, p.snapshots, (x: Snapshot) => x.height, k);
        hide Remove; hide DropKey;
      }
      assert Peered(q, None);
      assert Clean(q) by {
        forall x ensures |Get(q.keysOf, x)| <= RECENT_SNAPSHOTS {
          assert |Get(p.keysOf, x)| <= RECENT_SNAPSHOTS;
          SmallerCount(Get(q.keysOf, x), Get(p.keysOf, x));
        }
      }
    } else {
      assert Get(p.peersOf, k) == {};
      assert p.snapshots - {k} == p.snapshots;
    }
  }

  lemma DetachOk(p: Pool, peer: Peer, k: Key, done: set<Key>)
    requires OkBut(p, peer, done, None) && k in Get(p.keysOf, peer) && k !in done
    ensures var q := Detach(p, peer, k);
            && OkBut(q, peer, done + {k}, None) && Get(q.keysOf, peer) == Get(p.keysOf, peer)
            && forall x, y :: Offers(q, x, y) <==> Offers(p, x, y) && !(x == peer && y == k)
  {
    hide Digits; hide KeyOf;
    var q := p.(peersOf := Remove(p.peersOf, k, peer));
    forall x, y ensures Offers(q, x, y) <==> Offers(p, x, y) && !(x == peer && y == k) { }
    assert OkBut(q, peer, done + {k}, Some(k)) by {
      forall x, y ensures Offers(q, x, y) <==> y in Get(q.keysOf, x) && !(x == peer && y in done + {k}) {
        assert Offers(p, x, y) <==> y in Get(p.keysOf, x) && !(x == peer && y in done);
      }
      assert Peered(q, Some(k));
    }
    if Get(q.peersOf, k) == {} {
      RemoveSnapshotOk(q, k, peer, done + {k}, Some(k));
      assert Detach(p, peer, k) == RemoveSnapshot(q, k);
      forall x, y ensures Offers(RemoveSnapshot(q, k), x, y) <==> Offers(p, x, y) && !(x == peer && y == k) {
        assert Offers(q, x, k) <==> false;
      }
      assert Get(DropKey(q.keysOf, {}, k), peer) == Get(q.keysOf, peer);
    }
  }

  // --- what the operations do ------------------------------------------------------

  /** `q` is `p` with exactly some offers gone, and no snapshot pooled that was not before. */
  ghost predicate Fewer(p: Pool, q: Pool, dropped: (Peer, Key) -> bool) {
    && (forall x, y :: Offers(q, x, y) <==> Offers(p, x, y) && !dropped(x, y))
    && (forall k :: k in q.snapshots ==> k in p.snapshots && q.snapshots[k] == p.snapshots[k])
  }

  ghost predicate SameBlacklists(p: Pool, q: Pool) {
    q.badFormats == p.badFormats && q.badPeers == p.badPeers && q.badSnapshots == p.badSnapshots
  }

  ghost predicate Rejected(p: Pool, q: Pool, k: Key) {
    && Fewer(p, q, (x: Peer, y: Key) => y == k)
    && SameBlacklists(p.(badSnapshots := p.badSnapshots + {k}), q)
  }

  ghost predicate FormatRejected(p: Pool, q: Pool, f: nat) {
    && Fewer(p, q, (x: Peer, y: Key) => y in p.snapshots && p.snapshots[y].format == f)
    && SameBlacklists(p.(badFormats := p.badFormats + {f}), q)
  }

  ghost predicate PeerRemoved(p: Pool, q: Pool, peer: Peer) {
    Fewer(p, q, (x: Peer, y: Key) => x == peer) && SameBlacklists(p, q)
  }

  ghost predicate PeerRejected(p: Pool, q: Pool, peer: Peer) {
    if peer == 0 then q == p
    else Fewer(p, q, (x: Peer, y: Key) => x == peer) && SameBlacklists(p.(badPeers := p.badPeers + {peer}), q)
  }

  class SnapshotPool {
    var snapshots: map<Key, Snapshot>
    var peersOf: map<Key, set<Peer>>
    var formats: map<nat, set<Key>>
    var heights: map<nat, set<Key>>
    var keysOf: map<Peer, set<Key>>
    var badFormats: set<nat>
    var badPeers: set<Peer>
    var badSnapshots: set<Key>

    ghost function View(): Pool
      reads this
    {
      Pool(snapshots, peersOf, formats, heights, keysOf, badFormats, badPeers, badSnapshots)
    }

    ghost predicate Valid()
      reads this
    {
      PoolOk(View())
    }

    constructor ()
      ensures View() == EMPTY && Valid()
    {
      snapshots, peersOf, formats, heights, keysOf := map[], map[], map[], map[], map[];
      badFormats, badPeers, badSnapshots := {}, {}, {};
      new;
      EmptyOk();
    }

    method AddSnapshot(peer: Peer, s: Snapshot) returns (isNew: bool)
      requires Valid()
      modifies this
      ensures Valid() && (isNew, View()) == Add(old(View()), peer, s)
    {
      hide KeyOf; hide PoolOk; hide Insert;
      AddOk(View(), peer, s);
      var k := KeyOf(s);
      if s.format in badFormats { return false; }
      if peer in badPeers { return false; }
      if k in badSnapshots { return false; }
      if |Get(keysOf, peer)| >= RECENT_SNAPSHOTS { return false; }
      peersOf := Insert(peersOf, k, peer);
      keysOf := Insert(keysOf, peer, k);
      if k in snapshots { return false; }
      snapshots := snapshots[k := s];
      formats := Insert(formats, s.format, k);
      heights := Insert(heights, s.height, k);
      return true;
    }

    /** Take a key off the index of some peers. */
    method ForgetKey(peers: set<Peer>, k: Key)
      modifies this`keysOf
      ensures keysOf == DropKey(old(keysOf), peers, k)
    {
      hide DropKey;
      var rest := peers;
      DropNothing(keysOf, k);
      assert peers - rest == {};
      while rest != {}
        invariant rest <= peers && keysOf == DropKey(old(keysOf), peers - rest, k)
        decreases |rest|
      {
        var peer :| peer in rest;
        DropOneMore(old(keysOf), peers - rest, peer, k);
        if peer in keysOf {
          keysOf := keysOf[peer := keysOf[peer] - {k}];
        }
        assert peers - (rest - {peer}) == peers - rest + {peer};
        rest := rest - {peer};
      }
      assert peers - rest == peers;
    }

    /** removeSnapshot. */
    method Forget(k: Key)
      modifies this
      ensures View() == RemoveSnapshot(old(View()), k)
    {
      hide Remove; hide DropKey;
      if k !in snapshots { return; }
      var s := snapshots[k];
      snapshots := snapshots - {k};
      formats := Remove(formats, s.format, k);
      heights := Remove(heights, s.height, k);
      ForgetKey(Get(peersOf, k), k);
      peersOf := peersOf - {k};
    }

    method Reject(s: Snapshot)
      requires Valid()
      modifies this
      ensures View() == RejectOne(old(View()), KeyOf(s))
      ensures Valid() && Rejected(old(View()), View(), KeyOf(s))
    {
      var k := KeyOf(s);
      hide KeyOf; hide RemoveSnapshot; hide PoolOk;
      RejectOneOk(View(), k);
      badSnapshots := badSnapshots + {k};
      Forget(k);
    }

    method RejectFormat(f: nat) returns (ghost order: seq<Key>)
      requires Valid()
      modifies this
      ensures Lists(order, Get(old(formats), f)) && View() == RejectFormatIn(old(View()), f, order)
      ensures Valid() && FormatRejected(old(View()), View(), f)
    {
      hide KeyOf; hide PoolOk; hide RemoveSnapshot; hide FormatRejected; hide Lists;
      ghost var p := View();
      badFormats := badFormats + {f};
      ghost var p1 := View();
      var rest := Get(formats, f);
      ghost var all := rest;
      order := [];
      NothingListed(all);
      while rest != {}
        invariant rest <= all && Lists(order, all - rest) && View() == ForgetAll(p1, order)
        decreases |rest|
      {
        var k :| k in rest;
        ListsOneMore(order, all, rest, k);
        Forget(k);
        order := order + [k];
        rest := rest - {k};
      }
      assert all - rest == all;
      RejectFormatOk(p, f, order);
    }

    method RemovePeer(peer: Peer) returns (ghost order: seq<Key>)
      requires Valid()
      modifies this
      ensures Lists(order, Get(old(keysOf), peer)) && View() == RemovePeerIn(old(View()), peer, order)
      ensures Valid() && PeerRemoved(old(View()), View(), peer)
    {
      hide KeyOf; hide PoolOk; hide RemoveSnapshot; hide PeerRemoved; hide Remove; hide Detach; hide Lists;
      ghost var p := View();
      var rest := Get(keysOf, peer);
      ghost var all := rest;
      order := [];
      NothingListed(all);
      while rest != {}
        invariant rest <= all && Lists(order, all - rest) && View() == DetachAll(p, peer, order)
        decreases |rest|
      {
        var k :| k in rest;
        ListsOneMore(order, all, rest, k);
        DetachIs(View(), peer, k);
        peersOf := Remove(peersOf, k, peer);
        if Get(peersOf, k) == {} {
          Forget(k);
        }
        order := order + [k];
        rest := rest - {k};
      }
      assert all - rest == all;
      keysOf := keysOf - {peer};
      RemovePeerOk(p, peer, order);
    }

    method RejectPeer(peer: Peer) returns (ghost order: seq<Key>)
      requires Valid()
      modifies this
      ensures Lists(order, if peer == 0 then {} else Get(old(keysOf), peer)) && View() == RejectPeerIn(old(View()), peer, order)
      ensures Valid() && PeerRejected(old(View()), View(), peer)
    {
      hide KeyOf; hide PoolOk; hide RemovePeerIn; hide PeerRemoved; hide PeerRejected;
      order := [];
      if peer == 0 {
        NothingRejected(View());
        return;
      }
      ghost var p := View();
      order := RemovePeer(peer);
      PeerRejectedOk(p, View(), peer);
      badPeers := badPeers + {peer};
    }
  }

  // --- the loops' bookkeeping --------------------------------------------------------

  lemma DropOneMore(keysOf: map<Peer, set<Key>>, done: set<Peer>, peer: Peer, k: Key)
    ensures var m := DropKey(keysOf, done, k);
            DropKey(keysOf, done + {peer}, k) == if peer in m then m[peer := m[peer] - {k}] else m
  {
    var m := DropKey(keysOf, done, k);
    var m' := DropKey(keysOf, done + {peer}, k);
    var m'' := if peer in m then m[peer := m[peer] - {k}] else m;
    assert m'.Keys == m''.Keys;
    forall q | q in m' ensures m'[q] == m''[q] { }
  }

  lemma DropNothing(keysOf: map<Peer, set<Key>>, k: Key)
    ensures DropKey(keysOf, {}, k) == keysOf
  {
  }

  lemma KeepsBlacklists(p: Pool, k: Key)
    ensures SameBlacklists(p, RemoveSnapshot(p, k))
  {
  }

  lemma BlacklistFirst(p: Pool, k: Key, q: Pool)
    requires q == p.(badSnapshots := p.badSnapshots + {k})
    ensures RemoveSnapshot(q, k) == RemoveSnapshot(p, k).(badSnapshots := p.badSnapshots + {k})
  {
  }

  lemma FormatListFirst(p: Pool, q: Pool, k: Key)
    requires q == p.(badFormats := q.badFormats)
    ensures RemoveSnapshot(q, k) == RemoveSnapshot(p, k).(badFormats := q.badFormats)
    ensures RemoveSnapshot(p, k).badFormats == p.badFormats
  {
  }

  lemma {:induction false} FormatListFirstForAll(p: Pool, q: Pool, order: seq<Key>)
    requires q == p.(badFormats := q.badFormats)
    ensures ForgetAll(q, order) == ForgetAll(p, order).(badFormats := q.badFormats)
    ensures ForgetAll(p, order).badFormats == p.badFormats
  {
    hide RemoveSnapshot;
    if order != [] {
      var init := order[..|order| - 1];
      FormatListFirstForAll(p, q, init);
      FormatListFirst(ForgetAll(p, init), ForgetAll(q, init), order[|order| - 1]);
    }
  }

  lemma NothingListed(all: set<Key>)
    ensures Lists([], all - all)
  {
    assert all - all == {};
  }

  lemma ListsOneMore(order: seq<Key>, all: set<Key>, rest: set<Key>, k: Key)
    requires Lists(order, all - rest) && rest <= all && k in rest
    ensures Lists(order + [k], all - (rest - {k})) && (order + [k])[..|order|] == order && (order + [k])[|order|] == k
  {
  }

  /** A list without its last key lists one key less. */
  lemma ListsOneLess(order: seq<Key>, keys: set<Key>)
    requires order != [] && Lists(order, keys)
    ensures var k := order[|order| - 1]; k in keys && Lists(order[..|order| - 1], keys - {k})
  {
    var k, init := order[|order| - 1], order[..|order| - 1];
    assert order == init + [k];
    forall x ensures x in init <==> x in keys - {k} {
      if x in init { var i :| 0 <= i < |init| && init[i] == x; assert order[i] != k; }
    }
  }

  lemma RejectOneOk(p: Pool, k: Key)
    requires PoolOk(p)
    ensures PoolOk(RejectOne(p, k)) && Rejected(p, RejectOne(p, k), k)
  {
    hide KeyOf; hide IndexedBy;
    RemoveSnapshotOk(p, k, 0, {}, None);
    KeepsBlacklists(p, k);
    BlacklistFirst(p, k, p.(badSnapshots := p.badSnapshots + {k}));
    hide RemoveSnapshot;
    RejectedOk(p, k, RemoveSnapshot(p, k), RejectOne(p, k));
    hide PoolOk; hide Rejected; hide OkBut;
  }

  lemma RejectedOk(p: Pool, k: Key, r: Pool, q: Pool)
    requires OkBut(r, 0, {}, None) && r.snapshots == p.snapshots - {k} && SameBlacklists(p, r)
    requires forall x, y :: Offers(r, x, y) <==> Offers(p, x, y) && y != k
    requires q == r.(badSnapshots := p.badSnapshots + {k})
    ensures PoolOk(q) && Rejected(p, q, k)
  {
    hide KeyOf; hide IndexedBy;
    assert forall x, y :: Offers(q, x, y) <==> Offers(r, x, y);
  }

  /** Forgetting some of a format's snapshots, in any order. */
  lemma {:induction false} ForgetSome(p: Pool, f: nat, order: seq<Key>, done: set<Key>)
    requires PoolOk(p) && Lists(order, done) && done <= Get(p.formats, f)
    ensures PartlyRejected(p, ForgetAll(p, order), f, Get(p.formats, f) - done)
  {
    hide PoolOk; hide PartlyRejected; hide RemoveSnapshot; hide KeyOf;
    var all := Get(p.formats, f);
    if order == [] {
      assert done == {} && all - done == all;
      StartRejecting(p, f);
    } else {
      var k, init := order[|order| - 1], order[..|order| - 1];
      ListsOneLess(order, done);
      ForgetSome(p, f, init, done - {k});
      RejectOneMore(p, ForgetAll(p, init), f, all - (done - {k}), k);
      assert all - (done - {k}) - {k} == all - done;
    }
  }

  lemma RejectFormatOk(p: Pool, f: nat, order: seq<Key>)
    requires PoolOk(p) && Lists(order, Get(p.formats, f))
    ensures PoolOk(RejectFormatIn(p, f, order)) && FormatRejected(p, RejectFormatIn(p, f, order), f)
  {
    hide PoolOk; hide PartlyRejected; hide FormatRejected; hide ForgetAll; hide KeyOf; hide Lists;
    var all := Get(p.formats, f);
    ForgetSome(p, f, order, all);
    assert all - all == {};
    FormatListFirstForAll(p, p.(badFormats := p.badFormats + {f}), order);
    AllRejected(p, ForgetAll(p, order), f, RejectFormatIn(p, f, order));
  }

  /** Detaching a peer from some of its snapshots, in any order. */
  lemma {:induction false} DetachSome(p: Pool, peer: Peer, order: seq<Key>, done: set<Key>)
    requires PoolOk(p) && Lists(order, done) && done <= Get(p.keysOf, peer)
    ensures PartlyRemoved(p, DetachAll(p, peer, order), peer, Get(p.keysOf, peer) - done)
  {
    hide PoolOk; hide PartlyRemoved; hide Detach; hide KeyOf;
    var all := Get(p.keysOf, peer);
    if order == [] {
      assert done == {} && all - done == all;
      StartRemoving(p, peer);
    } else {
      var k, init := order[|order| - 1], order[..|order| - 1];
      ListsOneLess(order, done);
      DetachSome(p, peer, init, done - {k});
      RemoveOneMore(p, DetachAll(p, peer, init), peer, all - (done - {k}), k);
      assert all - (done - {k}) - {k} == all - done;
    }
  }

  lemma RemovePeerOk(p: Pool, peer: Peer, order: seq<Key>)
    requires PoolOk(p) && Lists(order, Get(p.keysOf, peer))
    ensures PoolOk(RemovePeerIn(p, peer, order)) && PeerRemoved(p, RemovePeerIn(p, peer, order), peer)
  {
    hide PoolOk; hide PartlyRemoved; hide PeerRemoved; hide DetachAll; hide KeyOf; hide Lists;
    var all := Get(p.keysOf, peer);
    DetachSome(p, peer, order, all);
    assert all - all == {};
    AllRemoved(p, DetachAll(p, peer, order), peer);
  }

  lemma NothingRejected(p: Pool)
    ensures Lists([], {}) && RejectPeerIn(p, 0, []) == p && PeerRejected(p, p, 0)
  {
  }

  lemma RejectPeerOk(p: Pool, peer: Peer, order: seq<Key>)
    requires PoolOk(p) && Lists(order, if peer == 0 then {} else Get(p.keysOf, peer))
    ensures PoolOk(RejectPeerIn(p, peer, order)) && PeerRejected(p, RejectPeerIn(p, peer, order), peer)
  {
    hide PoolOk; hide PeerRemoved; hide RemovePeerIn; hide KeyOf; hide Lists;
    if peer != 0 {
      RemovePeerOk(p, peer, order);
      PeerRejectedOk(p, RemovePeerIn(p, peer, order), peer);
      hide PeerRejected;
    }
  }

  /** All snapshots of format f but `rest` are gone. */
  ghost predicate PartlyRejected(p: Pool, q: Pool, f: nat, rest: set<Key>) {
    && OkBut(q, 0, {}, None) && SameBlacklists(p, q) && Get(q.formats, f) == rest && rest <= Get(p.formats, f)
    && (forall x, y :: Offers(q, x, y) <==> Offers(p, x, y) && !(y in Get(p.formats, f) - rest))
    && q.snapshots == p.snapshots - (Get(p.formats, f) - rest)
  }

  lemma StartRejecting(p: Pool, f: nat)
    requires PoolOk(p)
    ensures PartlyRejected(p, p, f, Get(p.formats, f))
  {
    hide KeyOf; hide OkBut;
    assert p.snapshots - (Get(p.formats, f) - Get(p.formats, f)) == p.snapshots;
  }

  lemma RejectOneMore(p: Pool, q: Pool, f: nat, rest: set<Key>, k: Key)
    requires PartlyRejected(p, q, f, rest) && k in rest
    ensures PartlyRejected(p, RemoveSnapshot(q, k), f, rest - {k})
  {
    hide KeyOf;
    RemoveSnapshotOk(q, k, 0, {}, None);
    KeepsBlacklists(q, k);
    var r := RemoveSnapshot(q, k);
    assert q.snapshots[k].format == f by { assert k in Get(q.formats, f); }
    assert Get(r.formats, f) == rest - {k};
    hide OkBut; hide RemoveSnapshot;
    var all := Get(p.formats, f);
    assert all - (rest - {k}) == (all - rest) + {k};
    assert r.snapshots == p.snapshots - (all - (rest - {k}));
  }

  lemma AllRejected(p: Pool, r: Pool, f: nat, q: Pool)
    requires PoolOk(p) && PartlyRejected(p, r, f, {}) && q == r.(badFormats := p.badFormats + {f})
    ensures PoolOk(q) && FormatRejected(p, q, f)
  {
    hide KeyOf;
    assert forall x, y :: Offers(q, x, y) <==> Offers(r, x, y);
    forall k ensures k in Get(p.formats, f) <==> k in p.snapshots && p.snapshots[k].format == f { }
    forall k | k in q.snapshots ensures q.snapshots[k].format != f { }
    hide IndexedBy; hide Offers; hide Get;
  }

  /** The peer is detached from all its snapshots but `rest`. */
  ghost predicate PartlyRemoved(p: Pool, q: Pool, peer: Peer, rest: set<Key>) {
    var all := Get(p.keysOf, peer);
    && rest <= all && OkBut(q, peer, all - rest, None) && SameBlacklists(p, q) && Get(q.keysOf, peer) == all
    && (forall x, y :: Offers(q, x, y) <==> Offers(p, x, y) && !(x == peer && y in all - rest))
    && (forall k :: k in q.snapshots ==> k in p.snapshots && q.snapshots[k] == p.snapshots[k])
  }

  lemma StartRemoving(p: Pool, peer: Peer)
    requires PoolOk(p)
    ensures PartlyRemoved(p, p, peer, Get(p.keysOf, peer))
  {
    hide KeyOf;
    NobodyGone(p, 0, peer, None);
    hide OkBut;
    assert Get(p.keysOf, peer) - Get(p.keysOf, peer) == {};
  }

  lemma DetachIs(p: Pool, peer: Peer, k: Key)
    ensures var q := p.(peersOf := Remove(p.peersOf, k, peer));
            Detach(p, peer, k) == if Get(q.peersOf, k) == {} then RemoveSnapshot(q, k) else q
  {
  }

  lemma DetachDrops(p: Pool, peer: Peer, k: Key)
    ensures SameBlacklists(p, Detach(p, peer, k))
    ensures forall x :: x in Detach(p, peer, k).snapshots ==> x in p.snapshots && Detach(p, peer, k).snapshots[x] == p.snapshots[x]
  {
  }

  lemma RemoveOneMore(p: Pool, q: Pool, peer: Peer, rest: set<Key>, k: Key)
    requires PartlyRemoved(p, q, peer, rest) && k in rest
    ensures PartlyRemoved(p, Detach(q, peer, k), peer, rest - {k})
  {
    hide KeyOf; hide OkBut; hide Detach;
    var all := Get(p.keysOf, peer);
    DetachOk(q, peer, k, all - rest);
    DetachDrops(q, peer, k);
    assert all - (rest - {k}) == (all - rest) + {k};
  }

  lemma AllRemoved(p: Pool, r: Pool, peer: Peer)
    requires PoolOk(p) && PartlyRemoved(p, r, peer, {})
    ensures var q := r.(keysOf := r.keysOf - {peer}); PoolOk(q) && PeerRemoved(p, q, peer)
  {
    hide KeyOf; hide IndexedBy;
    var all := Get(p.keysOf, peer);
    var q := r.(keysOf := r.keysOf - {peer});
    assert all - {} == all;
    forall x, y ensures Offers(q, x, y) <==> Offers(p, x, y) && x != peer {
      assert Offers(r, x, y) <==> Offers(p, x, y) && !(x == peer && y in all);
      assert Offers(p, x, y) <==> y in Get(p.keysOf, x) && !(x == 0 && y in {});
    }
    forall x, y ensures Offers(q, x, y) <==> y in Get(q.keysOf, x) {
      assert Offers(r, x, y) <==> y in Get(r.keysOf, x) && !(x == peer && y in all);
    }
    assert Converse(q, 0, {});
    assert Clean(q) by { forall x ensures |Get(q.keysOf, x)| <= RECENT_SNAPSHOTS { assert |Get(r.keysOf, x)| <= RECENT_SNAPSHOTS; } }
    assert Peered(q, None);
    hide Get;
  }

  lemma PeerRejectedOk(p: Pool, r: Pool, peer: Peer)
    requires PoolOk(r) && PeerRemoved(p, r, peer) && peer != 0
    ensures var q := r.(badPeers := r.badPeers + {peer}); PoolOk(q) && PeerRejected(p, q, peer)
  {
    hide KeyOf; hide IndexedBy;
    var q := r.(badPeers := r.badPeers + {peer});
    assert forall x, y :: Offers(q, x, y) <==> Offers(r, x, y);
  }

  // --- whole histories ----------------------------------------------------------------

  datatype Op =
    | AddOp(peer: Peer, snapshot: Snapshot)
    | RejectOp(snapshot: Snapshot)
    | RejectFormatOp(format: nat, order: seq<Key>)
    | RemovePeerOp(peer: Peer, order: seq<Key>)
    | RejectPeerOp(peer: Peer, order: seq<Key>)

  function Step(p: Pool, op: Op): Pool {
    match op
    case AddOp(peer, s) => Add(p, peer, s).1
    case RejectOp(s) => RejectOne(p, KeyOf(s))
    case RejectFormatOp(f, order) => RejectFormatIn(p, f, order)
    case RemovePeerOp(peer, order) => RemovePeerIn(p, peer, order)
    case RejectPeerOp(peer, order) => RejectPeerIn(p, peer, order)
  }

  /** The orders are those of the maps iterated over. */
  ghost predicate Possible(p: Pool, op: Op) {
    match op
    case RejectFormatOp(f, order) => Lists(order, Get(p.formats, f))
    case RemovePeerOp(peer, order) => Lists(order, Get(p.keysOf, peer))
    case RejectPeerOp(peer, order) => Lists(order, if peer == 0 then {} else Get(p.keysOf, peer))
    case _ => true
  }

  ghost predicate Blacklisted(p: Pool, q: Pool) {
    p.badFormats <= q.badFormats && p.badPeers <= q.badPeers && p.badSnapshots <= q.badSnapshots
  }

  /** Every operation keeps the pool consistent and its blacklists. */
  lemma StepOk(p: Pool, op: Op)
    requires PoolOk(p) && Possible(p, op)
    ensures PoolOk(Step(p, op)) && Blacklisted(p, Step(p, op))
  {
    hide PoolOk; hide KeyOf; hide Fewer; hide Lists; hide ForgetAll; hide RemovePeerIn; hide RejectPeerIn; hide RejectFormatIn;
    hide RejectOne; hide Refused;
    match op
    case AddOp(peer, s) => AddOk(p, peer, s);
    case RejectOp(s) => RejectOneOk(p, KeyOf(s));
    case RejectFormatOp(f, order) => RejectFormatOk(p, f, order);
    case RemovePeerOp(peer, order) => RemovePeerOk(p, peer, order);
    case RejectPeerOp(peer, order) => RejectPeerOk(p, peer, order);
  }

  ghost predicate IsRun(ps: seq<Pool>, ops: seq<Op>) {
    && |ps| == |ops| + 1 && ps[0] == EMPTY
    && forall k :: 0 <= k < |ops| ==> Possible(ps[k], ops[k]) && ps[k + 1] == Step(ps[k], ops[k])
  }

  /** The pool is consistent after any history of operations. */
  lemma {:induction false} RunOk(ps: seq<Pool>, ops: seq<Op>, k: nat)
    requires IsRun(ps, ops) && k < |ps|
    ensures PoolOk(ps[k])
  {
    hide Step; hide PoolOk; hide Possible;
    if k == 0 {
      EmptyOk();
    } else {
      RunOk(ps, ops, k - 1);
      assert ps[k - 1 + 1] == Step(ps[k - 1], ops[k - 1]);
      StepOk(ps[k - 1], ops[k - 1]);
    }
  }

  lemma {:induction false} BlacklistsGrow(ps: seq<Pool>, ops: seq<Op>, i: nat, j: nat)
    requires IsRun(ps, ops) && i <= j < |ps|
    ensures Blacklisted(ps[i], ps[j])
  {
    hide Step; hide PoolOk; hide Possible;
    if i < j {
      BlacklistsGrow(ps, ops, i, j - 1);
      RunOk(ps, ops, j - 1);
      assert ps[j - 1 + 1] == Step(ps[j - 1], ops[j - 1]);
      StepOk(ps[j - 1], ops[j - 1]);
    }
  }

  /** What was rejected never comes back: not the snapshot, not the format, not the peer. */
  lemma NeverAgain(ps: seq<Pool>, ops: seq<Op>, i: nat, j: nat)
    requires IsRun(ps, ops) && i <= j < |ps|
    ensures forall k :: k in ps[i].badSnapshots ==> k !in ps[j].snapshots
    ensures forall k :: k in ps[j].snapshots ==> ps[j].snapshots[k].format !in ps[i].badFormats
    ensures forall peer, k :: peer in ps[i].badPeers ==> !Offers(ps[j], peer, k)
  {
    hide Step; hide Possible; hide Converse; hide Indexed; hide Peered; hide Offers;
    BlacklistsGrow(ps, ops, i, j);
    RunOk(ps, ops, j);
  }

  // --- keys --------------------------------------------------------------------------

  lemma {:induction false} DigitsAreDigits(n: nat)
    ensures Digits(n) != [] && forall i :: 0 <= i < |Digits(n)| ==> 48 <= Digits(n)[i] < 58
  {
    if n >= 10 { DigitsAreDigits(n / 10); }
  }

  lemma {:induction false} DigitsInjective(m: nat, n: nat)
    requires Digits(m) == Digits(n)
    ensures m == n
  {
    DigitsAreDigits(m / 10);
    DigitsAreDigits(n / 10);
    var d := Digits(m);
    if m >= 10 && n >= 10 {
      assert d[..|d| - 1] == Digits(m / 10) == Digits(n / 10);
      DigitsInjective(m / 10, n / 10);
    }
    assert d[|d| - 1] == 48 + m % 10 == 48 + n % 10;
  }

  /** A number and the colon after it can be read back off the front of a key. */
  lemma NumberSplits(m: nat, n: nat, a: seq<Byte>, b: seq<Byte>)
    requires Digits(m) + [COLON] + a == Digits(n) + [COLON] + b
    ensures m == n && a == b
  {
    DigitsAreDigits(m);
    DigitsAreDigits(n);
    var x, y := Digits(m), Digits(n);
    hide Digits;
    var k := x + [COLON] + a;
    assert k[|x|] == COLON && k[|y|] == COLON;
    assert |x| == |y|;
    assert x == k[..|x|] == y;
    assert a == k[|x| + 1..] == b;
    DigitsInjective(m, n);
  }

  /** What comes after the second colon. */
  function Tail(s: Snapshot): Key { Digits(s.chunks) + s.hash + s.metadata }

  /**
   Two snapshots share a key exactly if height and format are equal and the
   chunk count's digits, the hash and the metadata read the same on end.
   */
  lemma KeysEqual(a: Snapshot, b: Snapshot)
    ensures KeyOf(a) == KeyOf(b) <==> a.height == b.height && a.format == b.format && Tail(a) == Tail(b)
  {
    hide Digits;
    var fa, fb := Digits(a.format) + [COLON] + Tail(a), Digits(b.format) + [COLON] + Tail(b);
    assert KeyOf(a) == Digits(a.height) + [COLON] + fa;
    assert KeyOf(b) == Digits(b.height) + [COLON] + fb;
    hide KeyOf; hide Tail;
    if KeyOf(a) == KeyOf(b) {
      NumberSplits(a.height, b.height, fa, fb);
      NumberSplits(a.format, b.format, Tail(a), Tail(b));
    }
  }

  /** Snapshots of different heights or formats never share a key. */
  lemma HeightAndFormatDecide(a: Snapshot, b: Snapshot)
    requires a.height != b.height || a.format != b.format
    ensures KeyOf(a) != KeyOf(b)
  {
    KeysEqual(a, b);
  }

  /**
   The key tells a snapshot from all others with as many digits in the chunk
   count and as long a hash: a pool whose snapshots agree on these two lengths
   never confuses any.
   */
  lemma KeyDecides(a: Snapshot, b: Snapshot)
    requires |Digits(a.chunks)| == |Digits(b.chunks)| && |a.hash| == |b.hash|
    ensures KeyOf(a) == KeyOf(b) <==> a == b
  {
    KeysEqual(a, b);
    hide KeyOf; hide Digits;
    if KeyOf(a) == KeyOf(b) {
      var d, k := |Digits(a.chunks)|, Tail(a);
      assert Digits(a.chunks) == k[..d] == Digits(b.chunks);
      assert a.hash == k[d..d + |a.hash|] == b.hash;
      assert a.metadata == k[d + |a.hash|..] == b.metadata;
      DigitsInjective(a.chunks, b.chunks);
    }
  }

  /**
   Both lengths are needed.  Shifting a byte from the metadata to the hash, or a
   digit from the hash to the chunk count, gives another snapshot with the key.
   */
  lemma {:induction false} KeysCollide(s: Snapshot, x: Byte, digit: nat)
    requires digit < 10 && s.chunks > 0
    ensures var t := s.(metadata := [x] + s.metadata); t != s.(hash := s.hash + [x]) && KeyOf(t) == KeyOf(s.(hash := s.hash + [x]))
    ensures var t := s.(hash := [48 + digit] + s.hash);
            var u := s.(chunks := 10 * s.chunks + digit);
            t != u && KeyOf(t) == KeyOf(u)
    ensures KeyOf(Snapshot(1, 1, 1, [49, 5], [6])) == KeyOf(Snapshot(1, 1, 11, [5, 6], []))
  {
    var t, v := s.(metadata := [x] + s.metadata), s.(hash := s.hash + [x]);
    KeysEqual(t, v);
    assert |t.hash| != |v.hash|;
    assert Tail(t) == Tail(v);
    var t', u := s.(hash := [48 + digit] + s.hash), s.(chunks := 10 * s.chunks + digit);
    KeysEqual(t', u);
    assert u.chunks / 10 == s.chunks && u.chunks % 10 == digit;
    assert Digits(u.chunks) == Digits(s.chunks) + [48 + digit];
    assert Tail(t') == Tail(u);
    var p, q := Snapshot(1, 1, 1, [49, 5], [6]), Snapshot(1, 1, 11, [5, 6], []);
    KeysEqual(p, q);
    assert Digits(1) == [49] && Digits(11) == [49, 49];
    assert Tail(p) == [49, 49, 5, 6] == Tail(q);
  }

  /** A snapshot has its key for itself exactly if the chunk count is one digit and hash and metadata are empty. */
  lemma {:induction false} HasTwinExactly(a: Snapshot)
    ensures (exists b :: b != a && KeyOf(b) == KeyOf(a)) <==> a.chunks >= 10 || a.hash != [] || a.metadata != []
  {
    hide KeyOf;
    if a.chunks >= 10 || a.hash != [] || a.metadata != [] {
      var b :=
        if a.metadata != [] then a.(hash := a.hash + [a.metadata[0]], metadata := a.metadata[1..])
        else if a.hash != [] then a.(hash := a.hash[..|a.hash| - 1], metadata := [a.hash[|a.hash| - 1]])
        else a.(chunks := a.chunks / 10, hash := [48 + a.chunks % 10]);
      assert |b.hash| != |a.hash|;
      assert Tail(b) == Tail(a);
      KeysEqual(b, a);
    }
    if b :| b != a && KeyOf(b) == KeyOf(a) {
      KeysEqual(b, a);
      if a.chunks < 10 && a.hash == [] && a.metadata == [] {
        DigitsAreDigits(b.chunks);
        assert Tail(a) == Digits(a.chunks);
        assert |Digits(b.chunks)| == 1 && b.hash == [] && b.metadata == [];
        assert Tail(b) == Digits(b.chunks);
        DigitsInjective(b.chunks, a.chunks);
      }
    }
  }
}
