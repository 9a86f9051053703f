/**
 The chunk queue of state sync: fetchers allocate and add chunks, one consumer
 takes them in order, applies them, and may have chunks fetched or applied again.
 Temporary files are the data they hold; file operations do not fail.
 */
module Chunks {
  import opened Basics

  type Data = nat
  type Peer = nat

  datatype Snapshot = Snapshot(height: nat, format: nat, chunks: nat)

  datatype Chunk = Chunk(height: nat, format: nat, index: nat, data: Option<Data>, sender: Peer)

  /** No snapshot means the queue is closed. */
  datatype Queue = Queue(
    snapshot: Option<Snapshot>,
    files: map<nat, Data>,
    senders: map<nat, Peer>,
    claimed: set<nat>,
    returned: set<nat>)

  datatype AddResult = Added | Ignored | Refused

  function NewQueue(s: Snapshot): Queue { Queue(Some(s), map[], map[], {}, {}) }

  function Add(q: Queue, c: Chunk): (AddResult, Queue) {
    if c.data.None? then (Refused, q)
    else if q.snapshot.None? then (Ignored, q)
    else
      var s := q.snapshot.value;
      if c.height != s.height || c.format != s.format || c.index >= s.chunks then (Refused, q)
      else if c.index in q.files then (Ignored, q)
      else (Added, q.(files := q.files[c.index := c.data.value], senders := q.senders[c.index := c.sender]))
  }

  /** The lowest number from i on, below n, that is not taken; n if there is none. */
  function Lowest(taken: set<nat>, i: nat, n: nat): (r: nat)
    ensures i <= n ==> i <= r <= n && (r < n ==> r !in taken) && forall k :: i <= k < r ==> k in taken
    decreases n - i
  {
    if i >= n || i !in taken then i else Lowest(taken, i + 1, n)
  }

  function Allocate(q: Queue): (Option<nat>, Queue) {
    if q.snapshot.None? || |q.claimed| >= q.snapshot.value.chunks then (None, q)
    else
      var i := Lowest(q.claimed, 0, q.snapshot.value.chunks);
      if i == q.snapshot.value.chunks then (None, q) else (Some(i), q.(claimed := q.claimed + {i}))
  }

  function Discard(q: Queue, i: nat): Queue {
    if q.snapshot.None? || i !in q.files then q
    else q.(files := q.files - {i}, returned := q.returned - {i}, claimed := q.claimed - {i})
  }

  /** The chunks DiscardSender goes for: from that peer and not returned yet. */
  function From(q: Queue, peer: Peer): set<nat> {
    set i | i in q.senders && q.senders[i] == peer && i !in q.returned
  }

  function DiscardAll(q: Queue, who: set<nat>): Queue {
    var gone := if q.snapshot.None? then {} else who * q.files.Keys;
    q.(files := q.files - gone, returned := q.returned - gone, claimed := q.claimed - gone, senders := q.senders - who)
  }

  function DiscardSender(q: Queue, peer: Peer): Queue { DiscardAll(q, From(q, peer)) }

  /** Rejecting the empty sender, 0, is skipped. */
  function RejectSender(q: Queue, peer: Peer): Queue { if peer == 0 then q else DiscardSender(q, peer) }

  function Retry(q: Queue, i: nat): Queue { q.(returned := q.returned - {i}) }

  function RetryAll(q: Queue): Queue { q.(returned := {}) }

  datatype NextResult = Done | Got(chunk: Chunk) | Wait(index: nat)

  function Load(q: Queue, i: nat): Chunk
    requires q.snapshot.Some? && i in q.files
  {
    Chunk(q.snapshot.value.height, q.snapshot.value.format, i, Some(q.files[i]), if i in q.senders then q.senders[i] else 0)
  }

  /** The first half of Next: the index is marked as returned even if its chunk has yet to arrive. */
  function NextUp(q: Queue): (NextResult, Queue) {
    if q.snapshot.None? then (Done, q)
    else
      var i := Lowest(q.returned, 0, q.snapshot.value.chunks);
      if i == q.snapshot.value.chunks then (Done, q)
      else (if i in q.files then Got(Load(q, i)) else Wait(i), q.(returned := q.returned + {i}))
  }

  // --- the queue as an object ---------------------------------------------------

  class ChunkQueue {
    var snapshot: Option<Snapshot>
    var files: map<nat, Data>
    var senders: map<nat, Peer>
    var claimed: set<nat>
    var returned: set<nat>

    function View(): Queue
      reads this
    {
      Queue(snapshot, files, senders, claimed, returned)
    }

    constructor (s: Snapshot)
      ensures View() == NewQueue(s)
    {
      snapshot, files, senders, claimed, returned := Some(s), map[], map[], {}, {};
    }

    method AddChunk(c: Chunk) returns (r: AddResult)
      modifies this
      ensures (r, View()) == Add(old(View()), c)
    {
      if c.data.None? { return Refused; }
      if snapshot.None? { return Ignored; }
      if c.height != snapshot.value.height { return Refused; }
      if c.format != snapshot.value.format { return Refused; }
      if c.index >= snapshot.value.chunks { return Refused; }
      if c.index in files { return Ignored; }
      files := files[c.index := c.data.value];
      senders := senders[c.index := c.sender];
      return Added;
    }

    method AllocateChunk() returns (r: Option<nat>)
      modifies this
      ensures (r, View()) == Allocate(old(View()))
    {
      if snapshot.None? { return None; }
      if |claimed| >= snapshot.value.chunks { return None; }
      var i := 0;
      while i < snapshot.value.chunks
        invariant 0 <= i <= snapshot.value.chunks && View() == old(View())
        invariant Lowest(claimed, 0, snapshot.value.chunks) == Lowest(claimed, i, snapshot.value.chunks)
      {
        if i !in claimed {
          claimed := claimed + {i};
          return Some(i);
        }
        i := i + 1;
      }
      return None;
    }

    method Close()
      modifies this`snapshot
      ensures View() == old(View()).(snapshot := None)
    {
      snapshot := None;
    }

    method DiscardChunk(i: nat)
      modifies this
      ensures View() == Discard(old(View()), i)
    {
      if snapshot.None? { return; }
      if i !in files { return; }
      files := files - {i};
      returned := returned - {i};
      claimed := claimed - {i};
    }

    method DiscardFrom(peer: Peer)
      modifies this
      ensures View() == DiscardSender(old(View()), peer)
    {
      ghost var q := View();
      var rest := senders.Keys;
      ghost var done: set<nat> := {};
      DiscardNothing(q);
      assert From(q, peer) - rest == {};
      hide DiscardAll; hide Discard; hide From;
      while rest != {}
        invariant rest <= q.senders.Keys && done == From(q, peer) - rest && View() == DiscardAll(q, done)
        decreases |rest|
      {
        var i :| i in rest;
        DiscardOneMore(q, peer, rest, i);
        if i in senders && senders[i] == peer && i !in returned {
          DiscardChunk(i);
          senders := senders - {i};
          done := done + {i};
        }
        rest := rest - {i};
      }
      assert From(q, peer) - rest == From(q, peer);
    }

    method RetryChunk(i: nat)
      modifies this`returned
      ensures View() == Retry(old(View()), i)
    {
      returned := returned - {i};
    }

    method RetryEvery()
      modifies this`returned
      ensures View() == RetryAll(old(View()))
    {
      returned := {};
    }

    method Next() returns (r: NextResult)
      modifies this`returned
      ensures (r, View()) == NextUp(old(View()))
    {
      if snapshot.None? { return Done; }
      var i := 0;
      while i < snapshot.value.chunks
        invariant 0 <= i <= snapshot.value.chunks && View() == old(View())
        invariant Lowest(returned, 0, snapshot.value.chunks) == Lowest(returned, i, snapshot.value.chunks)
      {
        if i !in returned {
          r := if i in files then Got(Load(View(), i)) else Wait(i);
          returned := returned + {i};
          return;
        }
        i := i + 1;
      }
      return Done;
    }
  }

  lemma DiscardNothing(q: Queue)
    ensures DiscardAll(q, {}) == q
  {
  }

  lemma DiscardOneMore(q: Queue, peer: Peer, rest: set<nat>, i: nat)
    requires i in rest && i in q.senders
    ensures var done := From(q, peer) - rest;
            var d := DiscardAll(q, done);
            && i in d.senders
            && (if d.senders[i] == peer && i !in d.returned
                then From(q, peer) - (rest - {i}) == done + {i}
                     && DiscardAll(q, done + {i}) == Discard(d, i).(senders := d.senders - {i})
                else From(q, peer) - (rest - {i}) == done)
  {
    var done := From(q, peer) - rest;
    var d := DiscardAll(q, done);
    assert d.senders[i] == q.senders[i] && (i in d.returned <==> i in q.returned);
    DiscardTwice(q, done, i);
    hide DiscardAll;
  }

  lemma DiscardTwice(q: Queue, done: set<nat>, i: nat)
    requires i !in done && i in q.senders
    ensures var d := DiscardAll(q, done); DiscardAll(q, done + {i}) == Discard(d, i).(senders := d.senders - {i})
  {
    var d := DiscardAll(q, done);
    var e := DiscardAll(q, done + {i});
    assert e.files == Discard(d, i).files;
    assert e.senders == d.senders - {i};
    assert e.returned == Discard(d, i).returned;
    assert e.claimed == Discard(d, i).claimed;
  }

  // --- allocation ------------------------------------------------------------------

  datatype Op =
    | AddOp(chunk: Chunk)
    | AllocateOp
    | DiscardOp(index: nat)
    | DiscardSenderOp(peer: Peer)
    | RetryOp(index: nat)
    | RetryAllOp
    | NextOp
    | CloseOp

  function Step(q: Queue, op: Op): Queue {
    match op
    case AddOp(c) => Add(q, c).1
    case AllocateOp => Allocate(q).1
    case DiscardOp(i) => Discard(q, i)
    case DiscardSenderOp(peer) => DiscardSender(q, peer)
    case RetryOp(i) => Retry(q, i)
    case RetryAllOp => RetryAll(q)
    case NextOp => NextUp(q).1
    case CloseOp => q.(snapshot := None)
  }

  ghost predicate IsQueueRun(qs: seq<Queue>, ops: seq<Op>) {
    |qs| == |ops| + 1 && forall k :: 0 <= k < |ops| ==> qs[k + 1] == Step(qs[k], ops[k])
  }

  /** The operation throws chunk i away. */
  ghost predicate Discards(q: Queue, op: Op, i: nat) {
    i in q.files && (op == DiscardOp(i) || (op.DiscardSenderOp? && i in From(q, op.peer)))
  }

  lemma StaysClaimed(q: Queue, op: Op, i: nat)
    requires i in q.claimed && !Discards(q, op, i)
    ensures i in Step(q, op).claimed
  {
  }

  lemma {:induction false} StaysClaimedFor(qs: seq<Queue>, ops: seq<Op>, j: nat, k: nat, i: nat)
    requires IsQueueRun(qs, ops) && j <= k < |qs| && i in qs[j].claimed
    requires forall x :: j <= x < k ==> !Discards(qs[x], ops[x], i)
    ensures i in qs[k].claimed
  {
    hide Step; hide Discards;
    if j < k {
      StaysClaimedFor(qs, ops, j, k - 1, i);
      assert qs[k - 1 + 1] == Step(qs[k - 1], ops[k - 1]);
      StaysClaimed(qs[k - 1], ops[k - 1], i);
    }
  }

  /** Between two allocations of the same index it was discarded: no chunk is fetched twice at a time. */
  lemma AllocatedAgainAfterDiscard(qs: seq<Queue>, ops: seq<Op>, j: nat, k: nat, i: nat)
    requires IsQueueRun(qs, ops) && j < k < |ops| && ops[j].AllocateOp? && ops[k].AllocateOp?
    requires Allocate(qs[j]).0 == Some(i) && Allocate(qs[k]).0 == Some(i)
    ensures exists x :: j < x < k && Discards(qs[x], ops[x], i)
  {
    hide Discards;
    assert qs[j + 1] == Step(qs[j], ops[j]);
    if forall x :: j < x < k ==> !Discards(qs[x], ops[x], i) {
      StaysClaimedFor(qs, ops, j + 1, k, i);
    }
  }

  /** Indexes stay within the snapshot, so counting the claimed ones tells whether any is left. */
  lemma AllocateLowest(q: Queue)
    requires q.snapshot.Some? && forall i :: i in q.claimed ==> i < q.snapshot.value.chunks
    ensures var n := q.snapshot.value.chunks;
            match Allocate(q).0
            case Some(i) => i < n && i !in q.claimed && forall k :: 0 <= k < i ==> k in q.claimed
            case None => forall k :: 0 <= k < n ==> k in q.claimed
  {
    if |q.claimed| >= q.snapshot.value.chunks { AllBelow(q.claimed, q.snapshot.value.chunks); }
  }

  lemma {:induction false} AllBelow(s: set<nat>, n: nat)
    requires |s| >= n && forall i :: i in s ==> i < n
    ensures forall k :: 0 <= k < n ==> k in s
  {
    if n > 0 {
      var t := s - {n - 1};
      AllBelow(t, n - 1);
      if n - 1 !in s {
        assert t == s;
        TooMany(t, n - 1);
      }
    }
  }

  lemma {:induction false} TooMany(s: set<nat>, n: nat)
    requires forall i :: i in s ==> i < n
    ensures |s| <= n
  {
    if n == 0 {
      assert s == {};
    } else {
      TooMany(s - {n - 1}, n - 1);
    }
  }

  /** Next hands out the lowest index not yet returned, and is done exactly when all are. */
  lemma NextLowest(q: Queue)
    requires q.snapshot.Some?
    ensures var n := q.snapshot.value.chunks;
            match NextUp(q).0
            case Done => forall k :: 0 <= k < n ==> k in q.returned
            case Got(c) => c.index < n && c.index !in q.returned && c.index in q.files && c.data == Some(q.files[c.index])
                           && forall k :: 0 <= k < c.index ==> k in q.returned
            case Wait(i) => i < n && i !in q.returned && i !in q.files && forall k :: 0 <= k < i ==> k in q.returned
  {
  }

  // --- applying the chunks -----------------------------------------------------------

  datatype Verdict = Accept | Abort | RetryThis | RetrySnapshot | RejectSnapshot | Unknown

  datatype Response = Response(refetch: seq<nat>, reject: seq<Peer>, result: Verdict)

  /** What the application did and asked for. */
  datatype Event = Applied(index: nat) | Refetch(index: nat) | Again(index: nat)

  datatype Outcome = Restored | Aborted | SnapshotRetried | SnapshotRejected | Failed | TimedOut

  /** The last thing that happened to chunk i is that it was applied. */
  ghost predicate Settled(log: seq<Event>, i: nat) {
    if log == [] then false
    else if log[|log| - 1].index == i then log[|log| - 1].Applied?
    else Settled(log[..|log| - 1], i)
  }

  lemma SettledAfter(log: seq<Event>, e: Event, i: nat)
    ensures Settled(log + [e], i) == if e.index == i then e.Applied? else Settled(log, i)
  {
    assert (log + [e])[..|log|] == log;
  }

  /** Where the consumer, the loop of applyChunks, stands between two atomic steps. */
  datatype Pc =
    | Idle
    | Waiting(index: nat)
    | Applying(chunk: Chunk)
    | Handling(chunk: Chunk, response: Response, refetched: nat, rejected: nat)
    | Finished(outcome: Outcome, open: bool)

  datatype Machine = Machine(q: Queue, pc: Pc, log: seq<Event>)

  ghost predicate TakeNext(m: Machine, m': Machine) {
    m.pc.Idle? &&
    var (r, q') := NextUp(m.q);
    match r
    case Done => m' == m.(pc := Finished(Restored, m.q.snapshot.Some?))
    case Got(c) => m' == m.(q := q', pc := Applying(c))
    case Wait(i) => m' == m.(q := q', pc := Waiting(i))
  }

  /** The chunk arrived, the wait timed out, or the queue was closed meanwhile. */
  ghost predicate EndWait(m: Machine, m': Machine) {
    m.pc.Waiting? &&
    var i := m.pc.index;
    || (m.q.snapshot.Some? && i in m.q.files
        && m' == m.(q := m.q.(returned := m.q.returned + {i}), pc := Applying(Load(m.q, i))))
    || m' == m.(pc := Finished(TimedOut, m.q.snapshot.Some?))
    || (m.q.snapshot.None? && m' == m.(pc := Finished(Restored, false)))
  }

  ghost predicate ApplyChunk(m: Machine, m': Machine, r: Response) {
    m.pc.Applying? &&
    (|| m' == m.(pc := Handling(m.pc.chunk, r, 0, 0), log := m.log + [Applied(m.pc.chunk.index)])
     || m' == m.(pc := Finished(Failed, m.q.snapshot.Some?)))
  }

  ghost predicate HandleResponse(m: Machine, m': Machine) {
    m.pc.Handling? &&
    var Handling(c, r, x, y) := m.pc;
    var open := m.q.snapshot.Some?;
    if x < |r.refetch| then
      m' == m.(q := Discard(m.q, r.refetch[x]), pc := m.pc.(refetched := x + 1), log := m.log + [Refetch(r.refetch[x])])
    else if y < |r.reject| then
      m' == m.(q := RejectSender(m.q, r.reject[y]), pc := m.pc.(rejected := y + 1))
    else
      match r.result
      case Accept => m' == m.(pc := Idle)
      case Abort => m' == m.(pc := Finished(Aborted, open))
      case RetryThis => m' == m.(q := Retry(m.q, c.index), pc := Idle, log := m.log + [Again(c.index)])
      case RetrySnapshot => m' == m.(pc := Finished(SnapshotRetried, open))
      case RejectSnapshot => m' == m.(pc := Finished(SnapshotRejected, open))
      case Unknown => m' == m.(pc := Finished(Failed, open))
  }

  /** Meanwhile peers deliver chunks, fetchers allocate, and the queue may be closed. */
  ghost predicate Elsewhere(m: Machine, m': Machine) {
    || (exists c :: m' == m.(q := Add(m.q, c).1))
    || m' == m.(q := Allocate(m.q).1)
    || m' == m.(q := m.q.(snapshot := None))
  }

  ghost predicate MachineStep(m: Machine, m': Machine) {
    || TakeNext(m, m') || EndWait(m, m') || (exists r :: ApplyChunk(m, m', r)) || HandleResponse(m, m') || Elsewhere(m, m')
  }

  /** Which chunks are marked as returned, of those that were not at the start: those settled, and the one in hand. */
  ghost predicate InStep(m: Machine, start: set<nat>, inHand: Option<nat>) {
    && (forall i :: i !in start ==> (i in m.q.returned <==> Settled(m.log, i) || inHand == Some(i)))
    && (forall i :: i !in start && i in m.q.returned && Some(i) != inHand ==> i in m.q.files)
    && (inHand.Some? && inHand.value !in start ==> !Settled(m.log, inHand.value))
  }

  ghost predicate PcInStep(m: Machine, start: set<nat>) {
    match m.pc
    case Idle => InStep(m, start, None)
    case Waiting(i) => InStep(m, start, Some(i))
    case Applying(c) => InStep(m, start, Some(c.index)) && c.index in m.q.files
    case Handling(_, _, _, _) => InStep(m, start, None)
    case Finished(_, _) => true
  }

  ghost predicate MachineOk(s: Snapshot, start: set<nat>, m: Machine) {
    && (m.q.snapshot.Some? ==> m.q.snapshot == Some(s) && PcInStep(m, start))
    && (m.pc == Finished(Restored, true) ==> forall i :: 0 <= i < s.chunks && i !in start ==> Settled(m.log, i))
  }

  lemma TakeNextOk(s: Snapshot, start: set<nat>, m: Machine, m': Machine)
    requires MachineOk(s, start, m) && TakeNext(m, m')
    ensures MachineOk(s, start, m')
  {
    if m.q.snapshot.Some? { NextLowest(m.q); }
  }

  lemma ApplyChunkOk(s: Snapshot, start: set<nat>, m: Machine, m': Machine, r: Response)
    requires MachineOk(s, start, m) && ApplyChunk(m, m', r)
    ensures MachineOk(s, start, m')
  {
    forall i: nat ensures Settled(m.log + [Applied(m.pc.chunk.index)], i) == (i == m.pc.chunk.index || Settled(m.log, i)) {
      SettledAfter(m.log, Applied(m.pc.chunk.index), i);
    }
    hide Settled;
  }

  lemma HandleResponseOk(s: Snapshot, start: set<nat>, m: Machine, m': Machine)
    requires MachineOk(s, start, m) && HandleResponse(m, m')
    ensures MachineOk(s, start, m')
  {
    hide Settled;
    var Handling(c, r, x, y) := m.pc;
    if x < |r.refetch| {
      forall i: nat ensures Settled(m'.log, i) == (i != r.refetch[x] && Settled(m.log, i)) {
        SettledAfter(m.log, Refetch(r.refetch[x]), i);
      }
    } else if y >= |r.reject| && r.result == RetryThis {
      forall i: nat ensures Settled(m'.log, i) == (i != c.index && Settled(m.log, i)) {
        SettledAfter(m.log, Again(c.index), i);
      }
    }
  }

  lemma ElsewhereOk(s: Snapshot, start: set<nat>, m: Machine, m': Machine)
    requires MachineOk(s, start, m) && Elsewhere(m, m')
    ensures MachineOk(s, start, m')
  {
    hide Settled;
  }

  lemma MachineStepOk(s: Snapshot, start: set<nat>, m: Machine, m': Machine)
    requires MachineOk(s, start, m) && MachineStep(m, m')
    ensures MachineOk(s, start, m')
  {
    if TakeNext(m, m') {
      TakeNextOk(s, start, m, m');
    } else if exists r :: ApplyChunk(m, m', r) {
      var r :| ApplyChunk(m, m', r);
      ApplyChunkOk(s, start, m, m', r);
    } else if HandleResponse(m, m') {
      HandleResponseOk(s, start, m, m');
    } else if Elsewhere(m, m') {
      ElsewhereOk(s, start, m, m');
    } else {
      EndWaitOk(s, start, m, m');
    }
    hide MachineOk; hide TakeNext; hide ApplyChunk; hide HandleResponse; hide Elsewhere; hide EndWait;
  }

  lemma EndWaitOk(s: Snapshot, start: set<nat>, m: Machine, m': Machine)
    requires MachineOk(s, start, m) && EndWait(m, m')
    ensures MachineOk(s, start, m')
  {
    hide Settled;
  }

  ghost predicate IsRun(s: Snapshot, start: set<nat>, ms: seq<Machine>) {
    && ms != [] && ms[0].pc.Idle? && ms[0].log == [] && ms[0].q.snapshot == Some(s) && ms[0].q.returned == start
    && forall k :: 0 <= k < |ms| - 1 ==> MachineStep(ms[k], ms[k + 1])
  }

  /**
   Restore completeness: however fetchers, peers and the application interleave,
   applyChunks ends without error on an open queue only when every chunk not
   returned before it started was applied and neither refetched nor retried
   afterwards.
   */
  lemma {:induction false} RestoredMeansAllApplied(s: Snapshot, start: set<nat>, ms: seq<Machine>, k: nat)
    requires IsRun(s, start, ms) && k < |ms|
    ensures MachineOk(s, start, ms[k])
    ensures ms[k].pc == Finished(Restored, true) ==> forall i :: 0 <= i < s.chunks && i !in start ==> Settled(ms[k].log, i)
  {
    hide MachineStep;
    if k > 0 {
      RestoredMeansAllApplied(s, start, ms, k - 1);
      assert MachineStep(ms[k - 1], ms[k - 1 + 1]);
      MachineStepOk(s, start, ms[k - 1], ms[k]);
      hide Settled; hide PcInStep;
    }
  }

  // --- the loop itself --------------------------------------------------------------

  /** Chunks that arrive touch neither what was returned nor what is there already. */
  method Deliver(q: ChunkQueue, batch: seq<Chunk>)
    modifies q
    ensures q.snapshot == old(q.snapshot) && q.returned == old(q.returned) && old(q.files).Keys <= q.files.Keys
  {
    for k := 0 to |batch|
      invariant q.snapshot == old(q.snapshot) && q.returned == old(q.returned) && old(q.files).Keys <= q.files.Keys
    {
      var _ := q.AddChunk(batch[k]);
    }
  }

  ghost predicate QueueInStep(s: Snapshot, start: set<nat>, q: Queue, log: seq<Event>) {
    q.snapshot == Some(s) && InStep(Machine(q, Idle, log), start, None)
  }

  function Refetched(refetch: seq<nat>): seq<Event> { seq(|refetch|, k requires 0 <= k < |refetch| => Refetch(refetch[k])) }

  /** What one chunk and the answer to it add to the log. */
  function EventsOf(i: nat, r: Response): seq<Event> {
    [Applied(i)] + Refetched(r.refetch) + if r.result.RetryThis? then [Again(i)] else []
  }

  /** The log of applying chunks with these indexes and getting these answers. */
  function LogOf(applied: seq<nat>, responses: seq<Option<Response>>): seq<Event>
    requires |applied| <= |responses| && forall k :: 0 <= k < |applied| ==> responses[k].Some?
  {
    if applied == [] then []
    else
      var k := |applied| - 1;
      LogOf(applied[..k], responses) + EventsOf(applied[k], responses[k].value)
  }

  method Refetches(s: Snapshot, ghost start: set<nat>, q: ChunkQueue, refetch: seq<nat>, ghost log: seq<Event>)
    requires QueueInStep(s, start, q.View(), log)
    modifies q
    ensures QueueInStep(s, start, q.View(), log + Refetched(refetch))
  {
    hide Settled; hide QueueInStep;
    assert log + Refetched(refetch[..0]) == log;
    for k := 0 to |refetch|
      invariant QueueInStep(s, start, q.View(), log + Refetched(refetch[..k]))
    {
      RefetchedInStep(s, start, q.View(), log + Refetched(refetch[..k]), refetch[k]);
      q.DiscardChunk(refetch[k]);
      assert log + Refetched(refetch[..k + 1]) == log + Refetched(refetch[..k]) + [Refetch(refetch[k])];
    }
    assert refetch[..|refetch|] == refetch;
  }

  method Rejects(s: Snapshot, ghost start: set<nat>, q: ChunkQueue, reject: seq<Peer>, ghost log: seq<Event>)
    requires QueueInStep(s, start, q.View(), log)
    modifies q
    ensures QueueInStep(s, start, q.View(), log)
  {
    hide Settled;
    for k := 0 to |reject|
      invariant QueueInStep(s, start, q.View(), log)
    {
      if reject[k] != 0 {
        q.DiscardFrom(reject[k]);
      }
    }
  }

  /**
   applyChunks, with the application's answers given in order (none means the
   connection failed) and the chunks that arrive during each wait.  It reports
   the indexes of the chunks it had applied.
   */
  method ApplyChunks(q: ChunkQueue, responses: seq<Option<Response>>, arrivals: seq<seq<Chunk>>)
    returns (o: Outcome, applied: seq<nat>)
    modifies q
    ensures |applied| <= |responses| && forall k :: 0 <= k < |applied| ==> responses[k].Some?
    ensures o == Restored && old(q.snapshot).Some? ==>
              forall i :: 0 <= i < old(q.snapshot).value.chunks && i !in old(q.returned) ==> Settled(LogOf(applied, responses), i)
  {
    hide InStep; hide Settled; hide EventsOf;
    ghost var open, start := q.snapshot.Some?, q.returned;
    var s := if q.snapshot.Some? then q.snapshot.value else Snapshot(0, 0, 0);
    applied := [];
    if open { Fresh(s, start, q.View()); }
    var n, w := 0, 0;
    while true
      invariant |applied| == n <= |responses| && forall k :: 0 <= k < n ==> responses[k].Some?
      invariant if open then QueueInStep(s, start, q.View(), LogOf(applied, responses)) else q.snapshot.None?
      decreases |responses| - n
    {
      ghost var log, before := LogOf(applied, responses), q.View();
      if open { NextLowest(q.View()); }
      var r := q.Next();
      var c: Chunk;
      match r {
        case Done =>
          if open { AllReturned(s, start, q.View(), log); }
          return Restored, applied;
        case Got(chunk) =>
          c := chunk;
        case Wait(i) =>
          Deliver(q, if w < |arrivals| then arrivals[w] else []);
          w := w + 1;
          if i !in q.files {
            return TimedOut, applied;
          }
          c := Load(q.View(), i);
          q.returned := q.returned + {i};
      }
      if n == |responses| || responses[n].None? {
        return Failed, applied;
      }
      var answer := responses[n].value;
      AppliedInStep(s, start, before, q.View(), log, c.index);
      LogGrows(applied, responses, c.index);
      applied := applied + [c.index];
      n := n + 1;
      Refetches(s, start, q, answer.refetch, log + [Applied(c.index)]);
      Rejects(s, start, q, answer.reject, log + [Applied(c.index)] + Refetched(answer.refetch));
      match answer.result {
        case Accept =>
        case Abort => return Aborted, applied;
        case RetryThis =>
          RetriedInStep(s, start, q.View(), log + [Applied(c.index)] + Refetched(answer.refetch), c.index);
          q.RetryChunk(c.index);
        case RetrySnapshot => return SnapshotRetried, applied;
        case RejectSnapshot => return SnapshotRejected, applied;
        case Unknown => return Failed, applied;
      }
    }
  }

  lemma LogGrows(applied: seq<nat>, responses: seq<Option<Response>>, i: nat)
    requires |applied| < |responses| && forall k :: 0 <= k <= |applied| ==> responses[k].Some?
    ensures var r := responses[|applied|].value;
            var handled := LogOf(applied, responses) + [Applied(i)] + Refetched(r.refetch);
            LogOf(applied + [i], responses) == if r.result.RetryThis? then handled + [Again(i)] else handled
  {
    assert (applied + [i])[..|applied|] == applied;
  }

  lemma RefetchedInStep(s: Snapshot, start: set<nat>, q: Queue, log: seq<Event>, i: nat)
    requires QueueInStep(s, start, q, log)
    ensures QueueInStep(s, start, Discard(q, i), log + [Refetch(i)])
  {
    forall k: nat ensures Settled(log + [Refetch(i)], k) == (k != i && Settled(log, k)) { SettledAfter(log, Refetch(i), k); }
    hide Settled;
  }

  lemma Fresh(s: Snapshot, start: set<nat>, q: Queue)
    requires q.snapshot == Some(s) && q.returned == start
    ensures QueueInStep(s, start, q, [])
  {
  }

  lemma AllReturned(s: Snapshot, start: set<nat>, q: Queue, log: seq<Event>)
    requires QueueInStep(s, start, q, log) && forall k :: 0 <= k < s.chunks ==> k in q.returned
    ensures forall i :: 0 <= i < s.chunks && i !in start ==> Settled(log, i)
  {
    hide Settled;
  }

  /** The chunk in hand is applied: it was not settled before, and is now. */
  lemma AppliedInStep(s: Snapshot, start: set<nat>, q: Queue, q': Queue, log: seq<Event>, i: nat)
    requires QueueInStep(s, start, q, log) && q'.snapshot == q.snapshot && q'.returned == q.returned + {i}
    requires q.files.Keys <= q'.files.Keys && i in q'.files
    ensures QueueInStep(s, start, q', log + [Applied(i)])
  {
    forall k: nat ensures Settled(log + [Applied(i)], k) == (k == i || Settled(log, k)) { SettledAfter(log, Applied(i), k); }
    hide Settled;
  }

  lemma RetriedInStep(s: Snapshot, start: set<nat>, q: Queue, log: seq<Event>, i: nat)
    requires QueueInStep(s, start, q, log)
    ensures QueueInStep(s, start, Retry(q, i), log + [Again(i)])
  {
    forall k: nat ensures Settled(log + [Again(i)], k) == (k != i && Settled(log, k)) { SettledAfter(log, Again(i), k); }
    hide Settled;
  }
}
