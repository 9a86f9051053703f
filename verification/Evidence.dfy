/**
 The evidence pool: pending and committed keys in a database, a list for
 gossip, and a buffer of conflicting votes.  Operations are atomic steps; the
 database does not fail.
 */
module Evidence {
  import opened Basics

  type Hash = nat

  /** `content` stands for what the hash of light client attack evidence leaves out. */
  datatype Ev = Ev(height: int, hash: Hash, light: bool, time: int, content: nat)

  datatype Key = Key(height: int, hash: Hash)

  function KeyOf(ev: Ev): Key { Key(ev.height, ev.hash) }

  datatype ChainState = ChainState(height: int, time: int, maxAgeBlocks: int, maxAgeDuration: int)

  datatype Pair = Pair(height: int, votes: nat)

  /**
   What the pool asks others: verification, forming evidence from two votes and
   a block time, and the time of an earlier block (if its header and validators
   can be loaded).
   */
  datatype Env = Env(
    valid: (ChainState, Ev) -> bool,
    form: (Pair, int) -> Ev,
    blockTime: int -> Option<int>)

  const UINT32 := 0x1_0000_0000
  const SECOND := 1_000_000_000

  datatype Pool = Pool(
    pending: map<Key, Ev>,
    committed: set<Key>,
    list: seq<Ev>,
    size: int,
    state: ChainState,
    buffer: seq<Pair>,
    pruningHeight: int,
    pruningTime: int)

  datatype Reject = Invalid(at: int) | AlreadyCommitted(at: int) | Duplicate(at: int) | OldState

  function IsPending(p: Pool, ev: Ev): bool { KeyOf(ev) in p.pending }

  function IsCommitted(p: Pool, ev: Ev): bool { KeyOf(ev) in p.committed }

  function AddPending(p: Pool, ev: Ev): Pool {
    p.(pending := p.pending[KeyOf(ev) := ev], size := (p.size + 1) % UINT32)
  }

  function RemovePending(p: Pool, k: Key): Pool { p.(pending := p.pending - {k}, size := (p.size + UINT32 - 1) % UINT32) }

  function Push(p: Pool, ev: Ev): Pool { p.(list := p.list + [ev]) }

  function Add(e: Env, p: Pool, ev: Ev): (Option<Reject>, Pool) {
    if IsPending(p, ev) || IsCommitted(p, ev) then (None, p)
    else if !e.valid(p.state, ev) then (Some(Invalid(0)), p)
    else (None, Push(AddPending(p, ev), ev))
  }

  predicate RepeatsEarlier(evs: seq<Ev>, i: nat)
    requires i < |evs|
  {
    exists j :: 0 <= j < i && evs[j].hash == evs[i].hash
  }

  function CheckOne(e: Env, p: Pool, evs: seq<Ev>, i: nat): (Option<Reject>, Pool)
    requires i < |evs|
  {
    var ev := evs[i];
    var fresh_ := ev.light || !IsPending(p, ev);
    if fresh_ && IsCommitted(p, ev) then (Some(AlreadyCommitted(i)), p)
    else if fresh_ && !e.valid(p.state, ev) then (Some(Invalid(i)), p)
    else
      var p' := if fresh_ then AddPending(p, ev) else p;
      (if RepeatsEarlier(evs, i) then Some(Duplicate(i)) else None, p')
  }

  /** CheckEvidence from index i on. */
  function Check(e: Env, p: Pool, evs: seq<Ev>, i: nat): (Option<Reject>, Pool)
    requires i <= |evs|
    decreases |evs| - i
  {
    if i == |evs| then (None, p)
    else
      var (r, p') := CheckOne(e, p, evs, i);
      if r.Some? then (r, p') else Check(e, p', evs, i + 1)
  }

  function Unlist(list: seq<Ev>, hashes: set<Hash>): seq<Ev> {
    if list == [] then [] else (if list[0].hash in hashes then [] else [list[0]]) + Unlist(list[1..], hashes)
  }

  /** The database part of markEvidenceAsCommitted, for the first n pieces, with the hashes to take off the list. */
  function Marked(p: Pool, evs: seq<Ev>, n: nat): (Pool, set<Hash>)
    requires n <= |evs|
  {
    if n == 0 then (p, {})
    else
      var (q, hashes) := Marked(p, evs, n - 1);
      var ev := evs[n - 1];
      var q' := if IsPending(q, ev) then RemovePending(q, KeyOf(ev)) else q;
      (q'.(committed := q'.committed + {KeyOf(ev)}), if IsPending(q, ev) then hashes + {ev.hash} else hashes)
  }

  function Mark(p: Pool, evs: seq<Ev>): Pool {
    var (q, hashes) := Marked(p, evs, |evs|);
    if hashes == {} then q else q.(list := Unlist(q.list, hashes))
  }

  function FlushOne(e: Env, p: Pool, s: ChainState, pair: Pair): Pool {
    var time := if pair.height == s.height then Some(s.time)
                else if pair.height < s.height then e.blockTime(pair.height) else None;
    if time.None? then p
    else
      var ev := e.form(pair, time.value);
      if IsPending(p, ev) || IsCommitted(p, ev) then p else Push(AddPending(p, ev), ev)
  }

  function Flush(e: Env, p: Pool, s: ChainState, n: nat): Pool
    requires n <= |p.buffer|
  {
    if n == 0 then p else FlushOne(e, Flush(e, p, s, n - 1), s, p.buffer[n - 1])
  }

  predicate Before(a: Key, b: Key) { a.height < b.height || (a.height == b.height && a.hash <= b.hash) }

  predicate IsFirst(k: Key, keys: set<Key>) { k in keys && forall x :: x in keys ==> Before(k, x) }

  predicate IsExpired(s: ChainState, ev: Ev) {
    s.height - ev.height > s.maxAgeBlocks && s.time - ev.time > s.maxAgeDuration
  }

  // --- the pool as an object ---------------------------------------------------

  class EvidencePool {
    const env: Env
    var pending: map<Key, Ev>
    var committed: set<Key>
    var list: seq<Ev>
    var size: int
    var state: ChainState
    var buffer: seq<Pair>
    var pruningHeight: int
    var pruningTime: int

    ghost function View(): Pool
      reads this
    {
      Pool(pending, committed, list, size, state, buffer, pruningHeight, pruningTime)
    }

    /** NewPool on an existing database. */
    constructor Reopen(env: Env, ghost p: Pool, pending: map<Key, Ev>, committed: set<Key>, state: ChainState)
      requires p.pending == pending && p.committed == committed && p.state == state
      requires forall k :: k in pending ==> KeyOf(pending[k]) == k
      ensures this.env == env && Reopened(p, View())
    {
      this.env, this.pending, this.committed, this.state := env, pending, committed, state;
      list, size, buffer, pruningHeight, pruningTime := [], 0, [], 0, 0;
      new;
      hide ExpiredRemoved; hide NextPruning; hide Reopened;
      ghost var before := View();
      pruningHeight, pruningTime := RemoveExpiredPendingEvidence();
      ghost var pruned := View();
      PrunedFrom(before, pruned.(pruningHeight := 0, pruningTime := 0));
      ListPending();
      size := |list| % UINT32;
      ReopensTo(p, before, pruned, View());
    }

    /** Every pending piece is listed, in key order. */
    method ListPending()
      requires forall k :: k in pending ==> KeyOf(pending[k]) == k
      modifies this`list
      ensures forall ev :: ev in list <==> KeyOf(ev) in pending && pending[KeyOf(ev)] == ev
    {
      hide IsFirst;
      var rest := pending.Keys;
      list := [];
      while rest != {}
        invariant rest <= pending.Keys
        invariant forall ev :: ev in list <==> KeyOf(ev) in pending.Keys - rest && pending[KeyOf(ev)] == ev
        decreases |rest|
      {
        FirstExists(rest);
        var k :| k in rest && IsFirst(k, rest);
        list := list + [pending[k]];
        rest := rest - {k};
      }
    }

    method AddPendingEvidence(ev: Ev)
      modifies this`pending, this`size
      ensures View() == AddPending(old(View()), ev)
    {
      pending := pending[KeyOf(ev) := ev];
      size := (size + 1) % UINT32;
    }

    method RemovePendingEvidence(k: Key)
      modifies this`pending, this`size
      ensures View() == RemovePending(old(View()), k)
    {
      pending := pending - {k};
      size := (size + UINT32 - 1) % UINT32;
    }

    method AddEvidence(ev: Ev) returns (r: Option<Reject>)
      modifies this
      ensures (r, View()) == Add(env, old(View()), ev)
    {
      if KeyOf(ev) in pending { return None; }
      if KeyOf(ev) in committed { return None; }
      if !env.valid(state, ev) { return Some(Invalid(0)); }
      AddPendingEvidence(ev);
      list := list + [ev];
      return None;
    }

    method ReportConflictingVotes(pair: Pair)
      modifies this`buffer
      ensures buffer == old(buffer) + [pair]
    {
      buffer := buffer + [pair];
    }

    method CheckEvidence(evs: seq<Ev>) returns (r: Option<Reject>)
      modifies this
      ensures (r, View()) == Check(env, old(View()), evs, 0)
    {
      var i := 0;
      while i < |evs|
        invariant 0 <= i <= |evs|
        invariant Check(env, View(), evs, i) == Check(env, old(View()), evs, 0)
      {
        var ev := evs[i];
        if ev.light || KeyOf(ev) !in pending {
          if KeyOf(ev) in committed { return Some(AlreadyCommitted(i)); }
          if !env.valid(state, ev) { return Some(Invalid(i)); }
          AddPendingEvidence(ev);
        }
        var j := i - 1;
        while j >= 0
          invariant -1 <= j < i
          invariant forall x :: j < x < i ==> evs[x].hash != evs[i].hash
        {
          if evs[j].hash == evs[i].hash { return Some(Duplicate(i)); }
          j := j - 1;
        }
        i := i + 1;
      }
      return None;
    }

    method RemoveEvidenceFromList(hashes: set<Hash>)
      modifies this`list
      ensures list == Unlist(old(list), hashes)
    {
      var kept: seq<Ev> := [];
      var i := 0;
      assert list[..0] == [];
      while i < |list|
        invariant 0 <= i <= |list| && list == old(list)
        invariant kept == Unlist(list[..i], hashes)
      {
        UnlistLast(list[..i], list[i], hashes);
        assert list[..i + 1] == list[..i] + [list[i]];
        if list[i].hash !in hashes { kept := kept + [list[i]]; }
        i := i + 1;
      }
      assert list[..i] == list;
      list := kept;
    }

    method MarkEvidenceAsCommitted(evs: seq<Ev>)
      modifies this
      ensures View() == Mark(old(View()), evs)
    {
      var hashes: set<Hash> := {};
      var i := 0;
      while i < |evs|
        invariant 0 <= i <= |evs|
        invariant (View(), hashes) == Marked(old(View()), evs, i)
      {
        var ev := evs[i];
        if KeyOf(ev) in pending {
          RemovePendingEvidence(KeyOf(ev));
          hashes := hashes + {ev.hash};
        }
        committed := committed + {KeyOf(ev)};
        i := i + 1;
      }
      if hashes != {} {
        RemoveEvidenceFromList(hashes);
      }
    }

    method ProcessConsensusBuffer(s: ChainState)
      modifies this
      ensures View() == Flush(env, old(View()), s, |old(buffer)|).(buffer := [])
    {
      var i := 0;
      while i < |buffer|
        invariant 0 <= i <= |buffer| && buffer == old(buffer)
        invariant View() == Flush(env, old(View()), s, i)
      {
        var pair := buffer[i];
        i := i + 1;
        var time := None;
        if pair.height == s.height {
          time := Some(s.time);
        } else if pair.height < s.height {
          time := env.blockTime(pair.height);
        }
        if time.None? { continue; }
        var ev := env.form(pair, time.value);
        if KeyOf(ev) in pending { continue; }
        if KeyOf(ev) in committed { continue; }
        AddPendingEvidence(ev);
        list := list + [ev];
      }
      buffer := [];
    }

    /**
     Pending evidence is removed in key order up to the first piece that has not
     expired; that piece says when to look again.
     */
    method RemoveExpiredPendingEvidence() returns (height: int, time: int)
      modifies this`pending, this`size, this`list
      ensures ExpiredRemoved(old(View()), View())
      ensures NextPruning(View(), height, time)
    {
      hide IsFirst; hide IsExpired; hide Pruning; hide ExpiredRemoved; hide Shrunk; hide RemovePending; hide Unlist;
      var hashes: set<Hash> := {};
      ghost var p := View();
      ghost var gone: set<Key> := {};
      PruningStarts(p);
      height, time := state.height, state.time;
      while pending != map[]
        invariant Pruning(p, View(), hashes, gone) && state == p.state
        invariant (height, time) == (state.height, state.time)
        decreases |pending|
      {
        FirstExists(pending.Keys);
        var k :| k in pending && IsFirst(k, pending.Keys);
        var ev := pending[k];
        if !IsExpired(state, ev) {
          height, time := ev.height + state.maxAgeBlocks + 1, ev.time + state.maxAgeDuration + SECOND;
          break;
        }
        PruningGoesOn(p, View(), hashes, gone, k);
        RemovePendingEvidence(k);
        hashes := hashes + {k.hash};
        gone := gone + {k};
      }
      UnlistNothing(list);
      PruningEnds(p, View(), hashes, gone);
      if hashes != {} {
        RemoveEvidenceFromList(hashes);
      }
    }

    /** Update; a state that is not newer panics in the source. */
    method Update(s: ChainState, evs: seq<Ev>) returns (r: Option<Reject>)
      modifies this
      ensures s.height <= old(state).height ==> r == Some(OldState) && View() == old(View())
      ensures s.height > old(state).height ==> r == None && Updated(env, old(View()), s, evs, View())
    {
      hide Mark; hide Flush; hide ExpiredRemoved; hide NextPruning;
      if s.height <= state.height {
        return Some(OldState);
      }
      ProcessConsensusBuffer(s);
      state := s;
      MarkEvidenceAsCommitted(evs);
      ghost var q := View();
      if size > 0 && s.height > pruningHeight && s.time > pruningTime {
        pruningHeight, pruningTime := RemoveExpiredPendingEvidence();
      }
      return None;
    }
  }

  /** Pruning took an initial, expired part of the pending evidence, and took it off the list. */
  ghost predicate ExpiredRemoved(p: Pool, q: Pool) {
    exists gone: set<Key> :: TookAway(p, q, gone)
  }

  /** The size counter after n decrements; it wraps. */
  function Shrunk(size: int, n: nat): int { if n == 0 then size else (size - n) % UINT32 }

  lemma ShrunkOnce(size: int, n: nat)
    ensures (Shrunk(size, n) + UINT32 - 1) % UINT32 == Shrunk(size, n + 1)
  {
    if n > 0 { assert ((size - n) % UINT32 + UINT32 - 1) % UINT32 == (size - n - 1) % UINT32; }
  }

  ghost predicate TookAway(p: Pool, q: Pool, gone: set<Key>) {
    && gone <= p.pending.Keys
    && q == p.(pending := p.pending - gone, list := Unlist(p.list, set k | k in gone :: k.hash), size := Shrunk(p.size, |gone|))
    && forall k :: k in gone ==> IsExpired(p.state, p.pending[k]) && forall x :: x in q.pending ==> Before(k, x)
  }

  /** When to prune next: once the first pending piece has expired. */
  ghost predicate NextPruning(p: Pool, height: int, time: int) {
    if p.pending == map[] then height == p.state.height && time == p.state.time
    else exists k :: k in p.pending && NextAfter(p, k, height, time)
  }

  ghost predicate NextAfter(p: Pool, k: Key, height: int, time: int)
    requires k in p.pending
  {
    && IsFirst(k, p.pending.Keys) && !IsExpired(p.state, p.pending[k])
    && height == p.pending[k].height + p.state.maxAgeBlocks + 1
    && time == p.pending[k].time + p.state.maxAgeDuration + SECOND
  }

  ghost predicate Pruning(p: Pool, q: Pool, hashes: set<Hash>, gone: set<Key>) {
    && gone <= p.pending.Keys && q == p.(pending := p.pending - gone, size := Shrunk(p.size, |gone|))
    && hashes == (set k | k in gone :: k.hash)
    && forall k :: k in gone ==> IsExpired(p.state, p.pending[k]) && forall x :: x in q.pending ==> Before(k, x)
  }

  lemma PruningStarts(p: Pool)
    ensures Pruning(p, p, {}, {})
  {
    assert p.pending - {} == p.pending;
  }

  lemma PruningGoesOn(p: Pool, q: Pool, hashes: set<Hash>, gone: set<Key>, k: Key)
    requires Pruning(p, q, hashes, gone) && k in q.pending && IsFirst(k, q.pending.Keys) && IsExpired(p.state, q.pending[k])
    ensures Pruning(p, RemovePending(q, k), hashes + {k.hash}, gone + {k})
    ensures RemovePending(q, k).state == p.state && |RemovePending(q, k).pending| < |q.pending|
  {
    hide IsExpired;
    ShrunkOnce(p.size, |gone|);
    hide Shrunk;
    assert |gone + {k}| == |gone| + 1;
    assert q.pending - {k} == p.pending - (gone + {k});
    assert (set x | x in gone + {k} :: x.hash) == hashes + {k.hash};
    assert (q.pending - {k}).Keys == q.pending.Keys - {k};
  }

  lemma PruningEnds(p: Pool, q: Pool, hashes: set<Hash>, gone: set<Key>)
    requires Pruning(p, q, hashes, gone)
    ensures ExpiredRemoved(p, q.(list := Unlist(q.list, hashes)))
  {
    hide IsExpired; hide Before; hide Unlist; hide Shrunk;
    assert TookAway(p, q.(list := Unlist(q.list, hashes)), gone);
  }

  /** Pruning looks at the database, the state and the list only. */
  lemma OnlyDbMatters(p: Pool, p': Pool, q: Pool, q': Pool)
    requires ExpiredRemoved(p, p') && p.pending == q.pending && p.list == q.list && p.state == q.state
    requires q' == q.(pending := p'.pending, list := p'.list, size := Shrunk(q.size, |p.pending.Keys - p'.pending.Keys|))
    ensures ExpiredRemoved(q, q')
    ensures forall k :: k in p'.pending ==> k in p.pending && p'.pending[k] == p.pending[k]
  {
    hide IsExpired; hide Before; hide Unlist; hide Shrunk; hide TookAway;
    var gone: set<Key> :| TookAway(p, p', gone);
    TookAwayFrom(p, p', gone);
    TookAwayAlso(p, p', q, q', gone);
  }

  lemma PrunedFrom(p: Pool, p': Pool)
    requires ExpiredRemoved(p, p')
    ensures forall k :: k in p'.pending ==> k in p.pending && p'.pending[k] == p.pending[k]
  {
    hide TookAway;
    var gone: set<Key> :| TookAway(p, p', gone);
    TookAwayFrom(p, p', gone);
  }

  lemma TookAwayFrom(p: Pool, p': Pool, gone: set<Key>)
    requires TookAway(p, p', gone)
    ensures gone == p.pending.Keys - p'.pending.Keys
    ensures forall k :: k in p'.pending ==> k in p.pending && p'.pending[k] == p.pending[k]
  {
    hide IsExpired; hide Before; hide Unlist; hide Shrunk;
  }

  lemma TookAwayAlso(p: Pool, p': Pool, q: Pool, q': Pool, gone: set<Key>)
    requires TookAway(p, p', gone) && p.pending == q.pending && p.list == q.list && p.state == q.state
    requires q' == q.(pending := p'.pending, list := p'.list, size := Shrunk(q.size, |gone|))
    ensures TookAway(q, q', gone)
  {
    hide IsExpired; hide Before; hide Unlist; hide Shrunk;
  }

  lemma {:induction false} UnlistLast(list: seq<Ev>, ev: Ev, hashes: set<Hash>)
    ensures Unlist(list + [ev], hashes) == if ev.hash in hashes then Unlist(list, hashes) else Unlist(list, hashes) + [ev]
  {
    if list == [] {
      assert [] + [ev] == [ev] && [ev][1..] == [];
    } else {
      UnlistLast(list[1..], ev, hashes);
      assert (list + [ev])[1..] == list[1..] + [ev];
    }
  }

  lemma {:induction false} UnlistNothing(list: seq<Ev>)
    ensures Unlist(list, {}) == list
  {
    if list != [] { UnlistNothing(list[1..]); }
  }

  lemma {:induction false} FirstExists(keys: set<Key>)
    requires keys != {}
    ensures exists k :: k in keys && IsFirst(k, keys)
  {
    var k :| k in keys;
    var rest := keys - {k};
    if rest == {} {
      assert IsFirst(k, keys) by { assert keys == {k}; }
    } else {
      FirstExists(rest);
      var f :| f in rest && IsFirst(f, rest);
      assert forall x :: x in keys ==> x == k || x in rest;
      if Before(f, k) { assert IsFirst(f, keys); } else { assert IsFirst(k, keys); }
    }
  }

  /** A pool opened on what another left in the database: expired evidence pruned, the rest listed, the buffer gone. */
  ghost predicate Reopened(p: Pool, p': Pool) {
    exists q :: ExpiredRemoved(p.(list := [], buffer := []), q) && Relisted(q, p')
  }

  ghost predicate Relisted(q: Pool, p': Pool) {
    && p' == q.(list := p'.list, size := p'.size, pruningHeight := p'.pruningHeight, pruningTime := p'.pruningTime)
    && p'.size == |p'.list| % UINT32
    && (forall ev :: ev in p'.list <==> KeyOf(ev) in q.pending && q.pending[KeyOf(ev)] == ev)
  }

  /** Opening a pool: nothing listed, then pruned, then everything left listed. */
  lemma ReopensTo(p: Pool, before: Pool, pruned: Pool, p': Pool)
    requires before == Pool(p.pending, p.committed, [], 0, p.state, [], 0, 0)
    requires ExpiredRemoved(before, pruned.(pruningHeight := 0, pruningTime := 0))
    requires p' == pruned.(list := p'.list, size := |p'.list| % UINT32)
    requires forall ev :: ev in p'.list <==> KeyOf(ev) in pruned.pending && pruned.pending[KeyOf(ev)] == ev
    ensures Reopened(p, p')
  {
    hide Shrunk; hide Unlist; hide IsExpired; hide Before;
    var q := pruned.(size := Shrunk(p.size, |p.pending.Keys - pruned.pending.Keys|), pruningHeight := p.pruningHeight, pruningTime := p.pruningTime);
    OnlyDbMatters(before, pruned.(pruningHeight := 0, pruningTime := 0), p.(list := [], buffer := []), q);
    assert Relisted(q, p');
  }

  lemma ReopenedOk(p: Pool, p': Pool)
    requires PoolOk(p) && Reopened(p, p')
    ensures PoolOk(p') && p'.committed == p.committed
  {
    var q :| ExpiredRemoved(p.(list := [], buffer := []), q) && Relisted(q, p');
    ExpiredRemovedOk(p.(list := [], buffer := []), q);
  }

  /** What Update leaves: the buffer flushed, the block's evidence marked, and perhaps expired evidence pruned. */
  ghost predicate Updated(e: Env, p: Pool, s: ChainState, evs: seq<Ev>, p': Pool) {
    var q := Mark(Flush(e, p, s, |p.buffer|).(buffer := [], state := s), evs);
    if q.size > 0 && s.height > q.pruningHeight && s.time > q.pruningTime
    then ExpiredRemoved(q, p'.(pruningHeight := q.pruningHeight, pruningTime := q.pruningTime))
         && NextPruning(p'.(pruningHeight := q.pruningHeight, pruningTime := q.pruningTime), p'.pruningHeight, p'.pruningTime)
    else p' == q
  }

  // --- the invariant ------------------------------------------------------------

  /** Evidence is stored under its own key, is never both pending and committed, and what is listed is pending. */
  ghost predicate PoolOk(p: Pool) {
    && (forall k :: k in p.pending ==> KeyOf(p.pending[k]) == k)
    && (forall k :: k in p.pending ==> k !in p.committed)
    && (forall ev :: ev in p.list ==> KeyOf(ev) in p.pending)
  }

  lemma AddPendingOk(p: Pool, ev: Ev)
    requires PoolOk(p) && !IsCommitted(p, ev)
    ensures PoolOk(AddPending(p, ev)) && PoolOk(Push(AddPending(p, ev), ev))
  {
  }

  lemma AddOk(e: Env, p: Pool, ev: Ev)
    requires PoolOk(p)
    ensures PoolOk(Add(e, p, ev).1) && Add(e, p, ev).1.committed == p.committed
  {
    if !IsCommitted(p, ev) { AddPendingOk(p, ev); }
    hide PoolOk;
  }

  lemma {:induction false} FlushOk(e: Env, p: Pool, s: ChainState, n: nat)
    requires PoolOk(p) && n <= |p.buffer|
    ensures PoolOk(Flush(e, p, s, n)) && Flush(e, p, s, n).committed == p.committed
  {
    hide PoolOk;
    if n > 0 {
      FlushOk(e, p, s, n - 1);
      var q := Flush(e, p, s, n - 1);
      var pair := p.buffer[n - 1];
      forall ev | !IsCommitted(q, ev) ensures PoolOk(Push(AddPending(q, ev), ev)) { AddPendingOk(q, ev); }
    }
  }

  lemma {:induction false} UnlistKeeps(list: seq<Ev>, hashes: set<Hash>, ev: Ev)
    ensures ev in Unlist(list, hashes) <==> ev in list && ev.hash !in hashes
  {
    if list != [] {
      UnlistKeeps(list[1..], hashes, ev);
      assert list == [list[0]] + list[1..];
    }
  }

  function KeysOf(evs: seq<Ev>): seq<Key> { seq(|evs|, i requires 0 <= i < |evs| => KeyOf(evs[i])) }

  /** Marking moves keys: out of pending, into committed; the hashes collected are those of the keys that left. */
  ghost predicate Moved(p: Pool, q: Pool, hashes: set<Hash>, keys: set<Key>) {
    && q == p.(pending := p.pending - keys, committed := p.committed + keys, size := q.size)
    && hashes == set k | k in keys && k in p.pending :: k.hash
  }

  function FirstKeys(evs: seq<Ev>, n: nat): set<Key>
    requires n <= |evs|
  {
    set i | 0 <= i < n :: KeyOf(evs[i])
  }

  lemma {:induction false} MarkedMoves(p: Pool, evs: seq<Ev>, n: nat)
    requires n <= |evs|
    ensures Moved(p, Marked(p, evs, n).0, Marked(p, evs, n).1, FirstKeys(evs, n))
  {
    if n == 0 {
      assert p.pending - {} == p.pending;
    } else {
      MarkedMoves(p, evs, n - 1);
      var (q, hashes) := Marked(p, evs, n - 1);
      var (q', hashes') := Marked(p, evs, n);
      var k := KeyOf(evs[n - 1]);
      assert FirstKeys(evs, n) == FirstKeys(evs, n - 1) + {k};
      hide Marked;
      MovedOneMore(p, q, hashes, FirstKeys(evs, n - 1), k);
    }
  }

  lemma MovedOneMore(p: Pool, q: Pool, hashes: set<Hash>, keys: set<Key>, k: Key)
    requires Moved(p, q, hashes, keys)
    ensures var q' := if k in q.pending then RemovePending(q, k) else q;
            Moved(p, q'.(committed := q'.committed + {k}), if k in q.pending then hashes + {k.hash} else hashes, keys + {k})
  {
    assert p.pending - keys - {k} == p.pending - (keys + {k});
    assert k !in q.pending ==> p.pending - keys == p.pending - (keys + {k});
    assert p.committed + keys + {k} == p.committed + (keys + {k});
  }

  lemma MarkOk(p: Pool, evs: seq<Ev>)
    requires PoolOk(p)
    ensures PoolOk(Mark(p, evs))
    ensures Mark(p, evs).committed == p.committed + set k | k in KeysOf(evs)
    ensures forall k :: k in KeysOf(evs) ==> k !in Mark(p, evs).pending
  {
    MarkedMoves(p, evs, |evs|);
    var (q, hashes) := Marked(p, evs, |evs|);
    var keys := FirstKeys(evs, |evs|);
    assert keys == set k | k in KeysOf(evs) by {
      forall i | 0 <= i < |evs| ensures KeyOf(evs[i]) in KeysOf(evs) { assert KeysOf(evs)[i] == KeyOf(evs[i]); }
    }
    hide Marked;
    var r := Mark(p, evs);
    UnlistNothing(q.list);
    forall ev | ev in r.list ensures KeyOf(ev) in r.pending {
      UnlistKeeps(q.list, hashes, ev);
    }
  }

  lemma ExpiredRemovedOk(p: Pool, q: Pool)
    requires PoolOk(p) && ExpiredRemoved(p, q)
    ensures PoolOk(q) && q.committed == p.committed
  {
    var gone: set<Key> :| TookAway(p, q, gone);
    hide IsExpired; hide Before;
    forall ev | ev in q.list ensures KeyOf(ev) in q.pending {
      UnlistKeeps(p.list, (set k | k in gone :: k.hash), ev);
    }
  }

  lemma UpdatedOk(e: Env, p: Pool, s: ChainState, evs: seq<Ev>, p': Pool)
    requires PoolOk(p) && Updated(e, p, s, evs, p')
    ensures PoolOk(p') && p'.committed == p.committed + set k | k in KeysOf(evs)
  {
    FlushOk(e, p, s, |p.buffer|);
    var f := Flush(e, p, s, |p.buffer|).(buffer := [], state := s);
    assert PoolOk(f);
    MarkOk(f, evs);
    var q := Mark(f, evs);
    var p0 := p'.(pruningHeight := q.pruningHeight, pruningTime := q.pruningTime);
    if ExpiredRemoved(q, p0) { ExpiredRemovedOk(q, p0); }
    hide Flush; hide Mark; hide ExpiredRemoved; hide NextPruning; hide KeysOf;
  }

  // --- what CheckEvidence accepts -------------------------------------------------

  /** Evidence i is new in the list, not committed, and valid unless it is pending duplicate vote evidence. */
  ghost predicate Acceptable(e: Env, p: Pool, evs: seq<Ev>, i: nat)
    requires i < |evs|
  {
    && !RepeatsEarlier(evs, i) && !IsCommitted(p, evs[i])
    && (evs[i].light || !IsPending(p, evs[i]) ==> e.valid(p.state, evs[i]))
  }

  /** `q` is `p` with the first i pieces of evidence pending. */
  ghost predicate CheckedSoFar(p: Pool, q: Pool, evs: seq<Ev>, i: nat)
    requires i <= |evs|
  {
    && q == p.(pending := q.pending, size := q.size) && PoolOk(q)
    && q.pending.Keys == p.pending.Keys + FirstKeys(evs, i)
  }

  lemma CheckOneStep(e: Env, p: Pool, q: Pool, evs: seq<Ev>, i: nat)
    requires PoolOk(p) && i < |evs| && CheckedSoFar(p, q, evs, i)
    ensures var (r, q') := CheckOne(e, q, evs, i);
            && (r.None? <==> Acceptable(e, p, evs, i))
            && (r.None? ==> CheckedSoFar(p, q', evs, i + 1))
            && PoolOk(q') && q' == p.(pending := q'.pending, size := q'.size)
  {
    var ev := evs[i];
    var earlier := FirstKeys(evs, i);
    assert FirstKeys(evs, i + 1) == earlier + {KeyOf(ev)};
    if !RepeatsEarlier(evs, i) {
      assert KeyOf(ev) !in earlier;
    }
    if !IsCommitted(q, ev) { AddPendingOk(q, ev); }
  }

  lemma SoFarIs(p: Pool, q: Pool, evs: seq<Ev>, i: nat)
    requires i <= |evs| && CheckedSoFar(p, q, evs, i)
    ensures PoolOk(q) && q == p.(pending := q.pending, size := q.size)
  {
    hide PoolOk;
  }

  lemma {:induction false} CheckFrom(e: Env, p: Pool, q: Pool, evs: seq<Ev>, i: nat)
    requires PoolOk(p) && i <= |evs| && CheckedSoFar(p, q, evs, i)
    ensures var (r, q') := Check(e, q, evs, i);
            && (r.None? <==> forall j: nat :: i <= j < |evs| ==> Acceptable(e, p, evs, j))
            && (r.None? ==> CheckedSoFar(p, q', evs, |evs|))
            && PoolOk(q') && q' == p.(pending := q'.pending, size := q'.size)
    decreases |evs| - i
  {
    hide CheckOne; hide Acceptable; hide PoolOk; hide CheckedSoFar;
    if i < |evs| {
      CheckOneStep(e, p, q, evs, i);
      var (r, q') := CheckOne(e, q, evs, i);
      if r.None? { CheckFrom(e, p, q', evs, i + 1); }
    } else {
      SoFarIs(p, q, evs, i);
    }
  }

  /**
   CheckEvidence passes exactly the lists with no piece twice, none committed
   already, and every piece valid that was not verified before, although it
   looks up pending pieces only among the pending.  What passes ends up pending.
   */
  lemma CheckEvidenceExact(e: Env, p: Pool, evs: seq<Ev>)
    requires PoolOk(p)
    ensures var (r, q) := Check(e, p, evs, 0);
            && (r.None? <==> forall j: nat :: j < |evs| ==> Acceptable(e, p, evs, j))
            && (r.None? ==> forall j :: 0 <= j < |evs| ==> KeyOf(evs[j]) in q.pending && KeyOf(evs[j]) !in q.committed)
            && PoolOk(q) && q.committed == p.committed
  {
    assert CheckedSoFar(p, p, evs, 0);
    CheckFrom(e, p, p, evs, 0);
    hide Check; hide Acceptable;
  }

  // --- committed at most once --------------------------------------------------------

  /**
   The pool, the lists that passed CheckEvidence since the last block, every key
   ever marked, and the keys of the evidence in the blocks applied so far.
   */
  datatype World = World(pool: Pool, checked: set<seq<Ev>>, marks: seq<Key>, chain: seq<Key>)

  /**
   A restart may first apply, without the pool, a block that was checked and
   stored before the crash; the pool is then opened on the latest state.
   */
  datatype Op =
    | Receive(ev: Ev)
    | Report(pair: Pair)
    | CheckBlock(evs: seq<Ev>)
    | Commit(state: ChainState, evs: seq<Ev>)
    | Restart(state: ChainState, replayed: seq<Ev>)

  ghost predicate Step(e: Env, w: World, op: Op, w': World) {
    match op
    case Receive(ev) => w' == w.(pool := Add(e, w.pool, ev).1)
    case Report(pair) => w' == w.(pool := w.pool.(buffer := w.pool.buffer + [pair]))
    case CheckBlock(evs) =>
      var (r, p) := Check(e, w.pool, evs, 0);
      w' == w.(pool := p, checked := if r.None? then w.checked + {evs} else w.checked)
    case Commit(s, evs) =>
      && evs in w.checked && s.height > w.pool.state.height && Updated(e, w.pool, s, evs, w'.pool)
      && w'.checked == {} && w'.marks == w.marks + KeysOf(evs) && w'.chain == w.chain + KeysOf(evs)
    case Restart(s, replayed) =>
      && (replayed == [] || replayed in w.checked) && Reopened(w.pool.(state := s), w'.pool)
      && w'.checked == {} && w'.marks == w.marks && w'.chain == w.chain + KeysOf(replayed)
  }

  ghost predicate Different(keys: seq<Key>) { forall i, j :: 0 <= i < j < |keys| ==> keys[i] != keys[j] }

  /** A list that passed has no hash and no key twice, and none committed. */
  ghost predicate Clean(p: Pool, evs: seq<Ev>) {
    && Different(KeysOf(evs)) && (forall k :: k in KeysOf(evs) ==> k !in p.committed)
    && (forall j: nat :: j < |evs| ==> !RepeatsEarlier(evs, j))
  }

  ghost predicate WorldOk(w: World) {
    && PoolOk(w.pool) && Different(w.marks)
    && (forall k :: k in w.pool.committed <==> k in w.marks)
    && (forall k :: k in w.marks ==> k in w.chain)
    && (forall evs :: evs in w.checked ==> Clean(w.pool, evs))
  }

  lemma CheckedIsClean(e: Env, p: Pool, evs: seq<Ev>)
    requires PoolOk(p) && Check(e, p, evs, 0).0.None?
    ensures Clean(p, evs)
  {
    CheckEvidenceExact(e, p, evs);
    hide Check;
    var keys := KeysOf(evs);
    forall i, j | 0 <= i < j < |keys| ensures keys[i] != keys[j] {
      assert Acceptable(e, p, evs, j);
      assert !RepeatsEarlier(evs, j);
    }
    forall k | k in keys ensures k !in p.committed {
      var i: nat :| i < |keys| && keys[i] == k;
      assert Acceptable(e, p, evs, i);
    }
    forall j: nat | j < |evs| ensures !RepeatsEarlier(evs, j) { assert Acceptable(e, p, evs, j); }
  }

  /** Appending different keys keeps a list different exactly if none is there already. */
  lemma DifferentAppend(marks: seq<Key>, keys: seq<Key>)
    requires Different(marks) && Different(keys)
    ensures Different(marks + keys) <==> forall k :: k in keys ==> k !in marks
  {
    var all := marks + keys;
    if forall k :: k in keys ==> k !in marks {
      forall i, j | 0 <= i < j < |all| ensures all[i] != all[j] {
        if i < |marks| <= j { assert keys[j - |marks|] in keys && marks[i] in marks; }
      }
    } else {
      var k :| k in keys && k in marks;
      var i, j :| 0 <= i < |marks| && marks[i] == k && 0 <= j < |keys| && keys[j] == k;
      assert all[i] == all[|marks| + j];
    }
  }

  lemma StepOk(e: Env, w: World, op: Op, w': World)
    requires WorldOk(w) && Step(e, w, op, w')
    ensures WorldOk(w')
  {
    match op
    case Receive(ev) =>
      AddOk(e, w.pool, ev);
      hide Add; hide PoolOk; hide Different; hide KeysOf;
    case Report(pair) =>
      hide Different; hide KeysOf;
    case CheckBlock(evs) =>
      CheckEvidenceExact(e, w.pool, evs);
      if Check(e, w.pool, evs, 0).0.None? { CheckedIsClean(e, w.pool, evs); }
      hide Check; hide PoolOk; hide Different; hide Acceptable; hide KeysOf;
    case Commit(s, evs) =>
      UpdatedOk(e, w.pool, s, evs, w'.pool);
      assert Clean(w.pool, evs);
      hide Updated; hide PoolOk; hide KeysOf;
      DifferentAppend(w.marks, KeysOf(evs));
      hide Different;
    case Restart(s, replayed) =>
      ReopenedOk(w.pool.(state := s), w'.pool);
      hide Reopened; hide PoolOk; hide Different; hide KeysOf;
  }

  /** A new node: an empty pool, nothing checked, marked or applied. */
  ghost predicate IsNew(w: World) {
    w == World(w.pool.(pending := map[], committed := {}, list := [], buffer := []), {}, [], [])
  }

  ghost predicate IsRun(e: Env, ws: seq<World>, ops: seq<Op>) {
    && |ws| == |ops| + 1 && IsNew(ws[0]) && forall k :: 0 <= k < |ops| ==> Step(e, ws[k], ops[k], ws[k + 1])
  }

  /**
   Evidence is marked committed at most once: over every run of receiving,
   reporting, checking, committing checked lists and restarting, no key is marked
   twice, nothing is ever pending and committed, and what is marked is on the chain.
   */
  lemma {:induction false} CommittedOnce(e: Env, ws: seq<World>, ops: seq<Op>, k: nat)
    requires IsRun(e, ws, ops) && k < |ws|
    ensures Different(ws[k].marks)
    ensures forall x :: x in ws[k].pool.pending ==> x !in ws[k].marks
    ensures WorldOk(ws[k])
  {
    if k > 0 {
      hide Step; hide Different;
      CommittedOnce(e, ws, ops, k - 1);
      assert Step(e, ws[k - 1], ops[k - 1], ws[k - 1 + 1]);
      StepOk(e, ws[k - 1], ops[k - 1], ws[k]);
    }
  }

  // --- once on the chain ---------------------------------------------------------------

  ghost predicate Committed(ops: seq<Op>, k: Key) {
    exists j :: 0 <= j < |ops| && ops[j].Commit? && k in KeysOf(ops[j].evs)
  }

  /** A restart applied a block with this evidence without telling the pool: the handshake's pool is empty and marks nothing. */
  ghost predicate Replayed(ops: seq<Op>, k: Key) {
    exists j :: 0 <= j < |ops| && ops[j].Restart? && k in KeysOf(ops[j].replayed)
  }

  /** The guards of CheckEvidence let a piece pass again: it was replayed and never marked, and is pending or valid. */
  ghost predicate AtRisk(e: Env, p: Pool, ops: seq<Op>, ev: Ev) {
    && Replayed(ops, KeyOf(ev)) && !Committed(ops, KeyOf(ev))
    && ((IsPending(p, ev) && !ev.light) || e.valid(p.state, ev))
  }

  lemma RunPrefix(e: Env, ws: seq<World>, ops: seq<Op>, n: nat)
    requires IsRun(e, ws, ops) && n <= |ops|
    ensures IsRun(e, ws[..n + 1], ops[..n])
  {
    hide Step;
  }

  lemma CommittedLast(ops: seq<Op>, op: Op, k: Key)
    ensures Committed(ops + [op], k) <==> Committed(ops, k) || (op.Commit? && k in KeysOf(op.evs))
  {
    hide KeysOf;
    var all := ops + [op];
    if j :| 0 <= j < |ops| && ops[j].Commit? && k in KeysOf(ops[j].evs) { assert all[j] == ops[j]; }
    if op.Commit? { assert all[|ops|] == op; }
  }

  lemma ReplayedLast(ops: seq<Op>, op: Op, k: Key)
    ensures Replayed(ops + [op], k) <==> Replayed(ops, k) || (op.Restart? && k in KeysOf(op.replayed))
  {
    hide KeysOf;
    var all := ops + [op];
    if j :| 0 <= j < |ops| && ops[j].Restart? && k in KeysOf(ops[j].replayed) { assert all[j] == ops[j]; }
    if op.Restart? { assert all[|ops|] == op; }
  }

  /** What is marked is what was committed; what is on the chain was committed or replayed. */
  lemma {:induction false} AppliedExactly(e: Env, ws: seq<World>, ops: seq<Op>, k: Key)
    requires IsRun(e, ws, ops)
    ensures k in ws[|ops|].marks <==> Committed(ops, k)
    ensures k in ws[|ops|].chain <==> Committed(ops, k) || Replayed(ops, k)
    decreases |ops|
  {
    if ops != [] {
      var n := |ops| - 1;
      RunPrefix(e, ws, ops, n);
      AppliedExactly(e, ws[..n + 1], ops[..n], k);
      assert Step(e, ws[n], ops[n], ws[n + 1]);
      assert ops == ops[..n] + [ops[n]];
      hide IsRun; hide Check; hide Updated; hide Reopened; hide KeysOf; hide Committed; hide Replayed;
      CommittedLast(ops[..n], ops[n], k);
      ReplayedLast(ops[..n], ops[n], k);
    }
  }

  ghost predicate Passes(e: Env, p: Pool, evs: seq<Ev>) { Check(e, p, evs, 0).0.None? }

  /** One call, on any pool: some list that passes repeats evidence of the chain exactly if some such piece passes alone. */
  lemma PassesAgainExactly(e: Env, w: World)
    requires WorldOk(w)
    ensures (exists evs, k :: Passes(e, w.pool, evs) && k in KeysOf(evs) && k in w.chain) <==>
              exists ev :: KeyOf(ev) in w.chain && Acceptable(e, w.pool, [ev], 0)
  {
    hide Check; hide WorldOk;
    assert PoolOk(w.pool) by { PoolIsOk(w); }
    hide PoolOk;
    if evs, k :| Passes(e, w.pool, evs) && k in KeysOf(evs) && k in w.chain {
      var i: nat :| i < |KeysOf(evs)| && KeysOf(evs)[i] == k;
      CheckEvidenceExact(e, w.pool, evs);
      assert Acceptable(e, w.pool, evs, i);
      assert KeyOf(evs[i]) in w.chain && Acceptable(e, w.pool, [evs[i]], 0);
    }
    if ev :| KeyOf(ev) in w.chain && Acceptable(e, w.pool, [ev], 0) {
      CheckEvidenceExact(e, w.pool, [ev]);
      assert Passes(e, w.pool, [ev]) && KeysOf([ev])[0] == KeyOf(ev);
    }
  }

  lemma PoolIsOk(w: World)
    requires WorldOk(w)
    ensures PoolOk(w.pool)
  {
  }

  // Lists that passed still would, until the next block.
  ghost predicate StillPass(e: Env, w: World) {
    forall evs, j: nat :: evs in w.checked && j < |evs| ==> Acceptable(e, w.pool, evs, j)
  }

  ghost predicate MorePending(p: Pool, q: Pool) {
    q.state == p.state && q.committed == p.committed && forall k :: k in p.pending ==> k in q.pending
  }

  lemma {:induction false} CheckAddsPending(e: Env, p: Pool, evs: seq<Ev>, i: nat)
    requires i <= |evs|
    ensures MorePending(p, Check(e, p, evs, i).1)
    decreases |evs| - i
  {
    hide RepeatsEarlier;
    if i < |evs| {
      var (r, p') := CheckOne(e, p, evs, i);
      if r.None? { CheckAddsPending(e, p', evs, i + 1); }
    }
  }

  lemma AcceptableLater(e: Env, p: Pool, q: Pool, evs: seq<Ev>, j: nat)
    requires MorePending(p, q) && j < |evs| && Acceptable(e, p, evs, j)
    ensures Acceptable(e, q, evs, j)
  {
    hide RepeatsEarlier;
  }

  /** Between blocks the pool only gains pending evidence, and the lists checked are those that passed. */
  lemma BetweenBlocks(e: Env, w: World, op: Op, w': World)
    requires Step(e, w, op, w') && !op.Commit? && !op.Restart?
    ensures MorePending(w.pool, w'.pool)
    ensures forall evs :: evs in w'.checked ==> evs in w.checked || Passes(e, w.pool, evs)
  {
    if op.CheckBlock? { CheckAddsPending(e, w.pool, op.evs, 0); }
    hide Check;
  }

  lemma StepStillPass(e: Env, w: World, op: Op, w': World)
    requires WorldOk(w) && StillPass(e, w) && Step(e, w, op, w')
    ensures StillPass(e, w')
  {
    PoolIsOk(w);
    hide WorldOk; hide PoolOk; hide Acceptable; hide Check; hide KeysOf; hide Updated; hide Reopened;
    if !op.Commit? && !op.Restart? {
      BetweenBlocks(e, w, op, w');
      hide Step; hide MorePending;
      forall evs, j: nat | evs in w'.checked && j < |evs| ensures Acceptable(e, w'.pool, evs, j) {
        CheckEvidenceExact(e, w.pool, evs);
        assert Acceptable(e, w.pool, evs, j);
        AcceptableLater(e, w.pool, w'.pool, evs, j);
      }
    }
  }

  lemma {:induction false} RunStillPass(e: Env, ws: seq<World>, ops: seq<Op>, n: nat)
    requires IsRun(e, ws, ops) && n < |ws|
    ensures StillPass(e, ws[n])
  {
    if n > 0 {
      hide Step; hide StillPass; hide WorldOk;
      RunStillPass(e, ws, ops, n - 1);
      CommittedOnce(e, ws, ops, n - 1);
      assert Step(e, ws[n - 1], ops[n - 1], ws[n - 1 + 1]);
      StepStillPass(e, ws[n - 1], ops[n - 1], ws[n]);
    }
  }

  /** A list that may be applied holds evidence of the chain only if it holds a piece at risk. */
  lemma RepeatIsAtRisk(e: Env, ws: seq<World>, ops: seq<Op>, evs: seq<Ev>, j: nat)
    requires IsRun(e, ws, ops) && j < |evs| && Acceptable(e, ws[|ops|].pool, evs, j) && KeyOf(evs[j]) in ws[|ops|].chain
    ensures AtRisk(e, ws[|ops|].pool, ops, evs[j])
  {
    AppliedExactly(e, ws, ops, KeyOf(evs[j]));
    CommittedOnce(e, ws, ops, |ops|);
    hide IsRun; hide PoolOk; hide Different; hide Clean; hide Committed; hide Replayed;
  }

  lemma ApplyOnce(e: Env, ws: seq<World>, ops: seq<Op>, evs: seq<Ev>)
    requires IsRun(e, ws, ops) && Different(ws[|ops|].chain) && Clean(ws[|ops|].pool, evs)
    requires forall j: nat :: j < |evs| ==> Acceptable(e, ws[|ops|].pool, evs, j)
    requires forall ev :: !AtRisk(e, ws[|ops|].pool, ops, ev)
    ensures Different(ws[|ops|].chain + KeysOf(evs))
  {
    var chain := ws[|ops|].chain;
    hide IsRun; hide AtRisk; hide Acceptable;
    forall k | k in KeysOf(evs) ensures k !in chain {
      var j: nat :| j < |KeysOf(evs)| && KeysOf(evs)[j] == k;
      if k in chain { RepeatIsAtRisk(e, ws, ops, evs, j); }
    }
    hide KeysOf;
    DifferentAppend(chain, KeysOf(evs));
  }

  lemma CheckedAre(e: Env, w: World, evs: seq<Ev>)
    requires WorldOk(w) && StillPass(e, w) && evs in w.checked
    ensures Clean(w.pool, evs) && forall j: nat :: j < |evs| ==> Acceptable(e, w.pool, evs, j)
  {
    hide PoolOk; hide Different; hide Clean; hide Acceptable;
  }

  /** As long as nothing is at risk, evidence is on the chain once. */
  lemma {:induction false} OnceWhileSafe(e: Env, ws: seq<World>, ops: seq<Op>)
    requires IsRun(e, ws, ops)
    requires forall n, ev :: 0 <= n < |ops| ==> !AtRisk(e, ws[n].pool, ops[..n], ev)
    ensures Different(ws[|ops|].chain)
    decreases |ops|
  {
    hide AtRisk; hide Different; hide Clean; hide WorldOk; hide StillPass; hide Acceptable;
    if ops == [] {
      EmptyDiffers();
    } else {
      var n := |ops| - 1;
      RunPrefix(e, ws, ops, n);
      var ws0, ops0 := ws[..n + 1], ops[..n];
      forall m, ev | 0 <= m < n ensures !AtRisk(e, ws0[m].pool, ops0[..m], ev) { assert ops0[..m] == ops[..m]; }
      OnceWhileSafe(e, ws0, ops0);
      CommittedOnce(e, ws0, ops0, n);
      RunStillPass(e, ws0, ops0, n);
      assert Step(e, ws[n], ops[n], ws[n + 1]);
      var evs := Applied(ops[n]);
      hide IsRun; hide Check; hide Updated; hide Reopened;
      assert ws[n + 1].chain == ws[n].chain + KeysOf(evs);
      if evs == [] {
        assert ws[n + 1].chain == ws[n].chain;
      } else {
        CheckedAre(e, ws[n], evs);
        ApplyOnce(e, ws0, ops0, evs);
      }
    }
  }

  lemma EmptyDiffers()
    ensures Different([])
  {
  }

  /** The evidence an operation puts on the chain. */
  function Applied(op: Op): seq<Ev> {
    match op
    case Commit(_, evs) => evs
    case Restart(_, replayed) => replayed
    case _ => []
  }

  lemma {:induction false} PruneToEnd(p: Pool, q: Pool, hashes: set<Hash>, gone: set<Key>)
    requires Pruning(p, q, hashes, gone)
    ensures exists r, height, time :: ExpiredRemoved(p, r) && NextPruning(r, height, time)
    decreases |q.pending|
  {
    hide ExpiredRemoved; hide Unlist; hide IsExpired; hide Before; hide Shrunk;
    var r := q.(list := Unlist(q.list, hashes));
    if q.pending == map[] {
      PruningEnds(p, q, hashes, gone);
      assert NextPruning(r, r.state.height, r.state.time);
    } else {
      FirstExists(q.pending.Keys);
      var k :| k in q.pending.Keys && IsFirst(k, q.pending.Keys);
      if IsExpired(p.state, q.pending[k]) {
        PruningGoesOn(p, q, hashes, gone, k);
        PruneToEnd(p, RemovePending(q, k), hashes + {k.hash}, gone + {k});
      } else {
        PruningEnds(p, q, hashes, gone);
        var height, time := q.pending[k].height + q.state.maxAgeBlocks + 1, q.pending[k].time + q.state.maxAgeDuration + SECOND;
        assert NextAfter(r, k, height, time);
        assert NextPruning(r, height, time);
      }
    }
  }

  lemma UpdatePossible(e: Env, p: Pool, s: ChainState, evs: seq<Ev>)
    ensures exists p' :: Updated(e, p, s, evs, p')
  {
    hide Flush; hide Mark; hide NextPruning;
    var q := Mark(Flush(e, p, s, |p.buffer|).(buffer := [], state := s), evs);
    if q.size > 0 && s.height > q.pruningHeight && s.time > q.pruningTime {
      PruningStarts(q);
      PruneToEnd(q, q, {}, {});
      var r, height, time :| ExpiredRemoved(q, r) && NextPruning(r, height, time);
      assert r.pruningHeight == q.pruningHeight && r.pruningTime == q.pruningTime;
      var p' := r.(pruningHeight := height, pruningTime := time);
      assert p'.(pruningHeight := q.pruningHeight, pruningTime := q.pruningTime) == r;
      assert Updated(e, p, s, evs, p');
    } else {
      assert Updated(e, p, s, evs, q);
    }
  }

  /** The run goes on with a block that passes the check and is committed. */
  ghost predicate GoesOn(e: Env, ws: seq<World>, ops: seq<Op>, evs: seq<Ev>, s: ChainState, w1: World, w2: World) {
    IsRun(e, ws + [w1, w2], ops + [CheckBlock(evs), Commit(s, evs)])
  }

  lemma GoesOnBy(e: Env, ws: seq<World>, ops: seq<Op>, evs: seq<Ev>, s: ChainState, w1: World, w2: World)
    requires IsRun(e, ws, ops)
    ensures GoesOn(e, ws, ops, evs, s, w1, w2) <==>
              Step(e, ws[|ops|], CheckBlock(evs), w1) && Step(e, w1, Commit(s, evs), w2)
  {
    hide Step;
    var n, ws', ops' := |ops|, ws + [w1, w2], ops + [CheckBlock(evs), Commit(s, evs)];
    assert ws'[n] == ws[n] && ws'[n + 1] == w1 && ws'[n + 1 + 1] == w2 && ops'[n] == CheckBlock(evs) && ops'[n + 1] == Commit(s, evs);
    forall k | 0 <= k < n ensures Step(e, ws'[k], ops'[k], ws'[k + 1]) { assert Step(e, ws[k], ops[k], ws[k + 1]); }
  }

  /** A piece at risk does get onto the chain again: a block with it passes and is committed. */
  lemma AtRiskRepeats(e: Env, ws: seq<World>, ops: seq<Op>, ev: Ev)
    requires IsRun(e, ws, ops) && AtRisk(e, ws[|ops|].pool, ops, ev)
    ensures exists s, w1, w2 :: GoesOn(e, ws, ops, [ev], s, w1, w2) && !Different(w2.chain)
  {
    var w, evs := ws[|ops|], [ev];
    AppliedExactly(e, ws, ops, KeyOf(ev));
    CommittedOnce(e, ws, ops, |ops|);
    assert PoolOk(w.pool) && KeyOf(ev) in w.chain && !IsCommitted(w.pool, ev);
    hide WorldOk; hide Different; hide IsRun; hide Committed; hide Replayed; hide PoolOk;
    assert Acceptable(e, w.pool, evs, 0);
    CheckEvidenceExact(e, w.pool, evs);
    hide Check; hide Updated;
    var s := w.pool.state.(height := w.pool.state.height + 1);
    var w1 := w.(pool := Check(e, w.pool, evs, 0).1, checked := w.checked + {evs});
    CheckAddsPending(e, w.pool, evs, 0);
    UpdatePossible(e, w1.pool, s, evs);
    var p' :| Updated(e, w1.pool, s, evs, p');
    var w2 := World(p', {}, w.marks + KeysOf(evs), w.chain + KeysOf(evs));
    assert Step(e, w, CheckBlock(evs), w1) && Step(e, w1, Commit(s, evs), w2);
    GoesOnBy(e, ws, ops, evs, s, w1, w2);
    hide GoesOn; hide Step;
    assert KeysOf(evs) == [KeyOf(ev)];
    TwiceDiffersNot(w.chain, KeyOf(ev));
  }

  lemma TwiceDiffersNot(chain: seq<Key>, k: Key)
    requires k in chain
    ensures !Different(chain + [k])
  {
    var i :| 0 <= i < |chain| && chain[i] == k;
    assert (chain + [k])[i] == (chain + [k])[|chain|];
  }

  /**
   After any run: the next block can put evidence onto the chain a second time
   exactly if some piece was replayed by a restart and never committed, and is
   pending duplicate vote evidence or still valid.
   */
  lemma NextRepeatsExactly(e: Env, ws: seq<World>, ops: seq<Op>)
    requires IsRun(e, ws, ops) && Different(ws[|ops|].chain)
    ensures (exists evs, s, w1, w2 :: GoesOn(e, ws, ops, evs, s, w1, w2) && !Different(w2.chain)) <==>
              exists ev :: AtRisk(e, ws[|ops|].pool, ops, ev)
  {
    var w := ws[|ops|];
    hide Different; hide AtRisk; hide GoesOn; hide WorldOk; hide StillPass; hide IsRun;
    if evs, s, w1, w2 :| GoesOn(e, ws, ops, evs, s, w1, w2) && !Different(w2.chain) {
      GoesOnBy(e, ws, ops, evs, s, w1, w2);
      CommittedOnce(e, ws, ops, |ops|);
      RunStillPass(e, ws, ops, |ops|);
      hide Updated;
      if evs in w.checked {
        CheckedAre(e, w, evs);
      } else {
        PoolIsOk(w);
        CheckEvidenceExact(e, w.pool, evs);
        CheckedIsClean(e, w.pool, evs);
      }
      hide Check; hide Clean; hide Acceptable;
      if forall ev :: !AtRisk(e, w.pool, ops, ev) { ApplyOnce(e, ws, ops, evs); }
    }
    if ev :| AtRisk(e, w.pool, ops, ev) { AtRiskRepeats(e, ws, ops, ev); }
  }

  /** Over all runs of a new node: evidence is on the chain at most once in all of them exactly if none reaches a piece at risk. */
  lemma OnChainOnce(e: Env)
    ensures (forall ws: seq<World>, ops: seq<Op> :: IsRun(e, ws, ops) ==> Different(ws[|ops|].chain)) <==>
              forall ws: seq<World>, ops: seq<Op>, ev: Ev :: IsRun(e, ws, ops) ==> !AtRisk(e, ws[|ops|].pool, ops, ev)
  {
    hide Step; hide Different; hide AtRisk; hide IsNew;
    if ws: seq<World>, ops: seq<Op>, ev: Ev :| IsRun(e, ws, ops) && AtRisk(e, ws[|ops|].pool, ops, ev) {
      AtRiskRepeats(e, ws, ops, ev);
      var s, w1, w2 :| GoesOn(e, ws, ops, [ev], s, w1, w2) && !Different(w2.chain);
      assert (ws + [w1, w2])[|ops| + 2] == w2;
    }
    if forall ws: seq<World>, ops: seq<Op>, ev: Ev :: IsRun(e, ws, ops) ==> !AtRisk(e, ws[|ops|].pool, ops, ev) {
      forall ws: seq<World>, ops: seq<Op> | IsRun(e, ws, ops) ensures Different(ws[|ops|].chain) {
        forall n, ev | 0 <= n < |ops| ensures !AtRisk(e, ws[n].pool, ops[..n], ev) {
          RunPrefix(e, ws, ops, n);
          assert ws[..n + 1][|ops[..n]|] == ws[n];
        }
        OnceWhileSafe(e, ws, ops);
      }
    }
  }

  /** In particular if no block applied at a restart held evidence. */
  lemma {:induction false} MarkedIfNoneReplayed(e: Env, ws: seq<World>, ops: seq<Op>, k: nat)
    requires IsRun(e, ws, ops) && k < |ws|
    requires forall j :: 0 <= j < k && ops[j].Restart? ==> ops[j].replayed == []
    ensures ws[k].chain == ws[k].marks && Different(ws[k].chain)
  {
    CommittedOnce(e, ws, ops, k);
    if k > 0 {
      MarkedIfNoneReplayed(e, ws, ops, k - 1);
      assert Step(e, ws[k - 1], ops[k - 1], ws[k - 1 + 1]);
      hide Check; hide Updated; hide Reopened; hide WorldOk; hide Different;
    }
  }

  // --- an example ----------------------------------------------------------------------

  const PIECE := Ev(1, 7, false, 0, 0)
  const TRUSTING := Env((s, ev) => true, (pair, time) => PIECE, h => None)

  function Opened(height: int): ChainState { ChainState(height, height, 10, 10) }

  /** The piece is pending when the block that holds it is replayed, and stays so. */
  const HELD := Pool(map[KeyOf(PIECE) := PIECE], {}, [PIECE], 1, Opened(2), [], 0, 0)

  lemma StaysPending()
    ensures Reopened(HELD.(list := [], state := Opened(2)), HELD)
  {
    var p := HELD.(list := []);
    assert p.pending - {} == p.pending;
    assert (set k: Key | k in {} :: k.hash) == {};
    UnlistNothing([]);
    assert TookAway(p.(list := [], buffer := []), p, {});
    assert ExpiredRemoved(p.(list := [], buffer := []), p) && Relisted(p, HELD);
  }

  lemma PiecePasses(p: Pool)
    requires p.committed == {}
    ensures Check(TRUSTING, p, [PIECE], 0) == (None, if IsPending(p, PIECE) then p else AddPending(p, PIECE))
  {
    var q := CheckOne(TRUSTING, p, [PIECE], 0).1;
    assert CheckOne(TRUSTING, p, [PIECE], 0) == (None, if IsPending(p, PIECE) then p else AddPending(p, PIECE));
    assert Check(TRUSTING, q, [PIECE], 1) == (None, q);
  }

  lemma Leaves()
    ensures Updated(TRUSTING, HELD, Opened(3), [PIECE], Pool(map[], {KeyOf(PIECE)}, [], 0, Opened(3), [], 0, 0))
  {
    var k, p := KeyOf(PIECE), HELD.(state := Opened(3));
    assert Marked(p, [PIECE], 0) == (p, {});
    assert p.pending - {k} == map[] && RemovePending(p, k).size == 0;
    var none: set<Hash> := {};
    assert p.committed + {k} == {k} && none + {PIECE.hash} == {PIECE.hash};
    assert Marked(p, [PIECE], 1) == (RemovePending(p, k).(committed := {k}), {PIECE.hash});
    assert p.list[1..] == [] && Unlist(p.list, {PIECE.hash}) == [];
  }

  /** A run of a new node with one piece of evidence on the chain twice: checked, replayed, checked again, committed. */
  lemma OnChainTwice()
    ensures exists ws: seq<World>, ops: seq<Op> :: IsRun(TRUSTING, ws, ops) && !Different(ws[|ops|].chain)
  {
    var k, evs := KeyOf(PIECE), [PIECE];
    var empty := Pool(map[], {}, [], 0, Opened(1), [], 0, 0);
    var checked := HELD.(list := [], state := Opened(1));
    var done := Pool(map[], {k}, [], 0, Opened(3), [], 0, 0);
    var ws := [World(empty, {}, [], []), World(checked, {evs}, [], []), World(HELD, {}, [], [k]),
               World(HELD, {evs}, [], [k]), World(done, {}, [k], [k, k])];
    var ops := [CheckBlock(evs), Restart(Opened(2), evs), CheckBlock(evs), Commit(Opened(3), evs)];
    StaysPending();
    PiecePasses(empty);
    PiecePasses(HELD);
    Leaves();
    hide Check; hide Reopened; hide Updated;
    assert KeysOf(evs) == [k];
    assert Step(TRUSTING, ws[0], ops[0], ws[1]);
    assert Step(TRUSTING, ws[1], ops[1], ws[2]);
    assert Step(TRUSTING, ws[2], ops[2], ws[3]);
    assert Step(TRUSTING, ws[3], ops[3], ws[4]);
    hide Step;
    assert IsRun(TRUSTING, ws, ops);
    var chain := ws[|ops|].chain;
    assert chain[0] == chain[1];
  }
}
