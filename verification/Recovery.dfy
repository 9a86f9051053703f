/**
 Block store, state store and application commit a block at different moments.
 This module models the durable effects of finalizing a block and of the
 handshake that brings the three back together after a crash.

 Every operation is described by its trace: the disks it leaves one after the
 other, the blocks it makes the real application execute, and how it ends.  A
 crash leaves the disk at any point of the trace.
 */
module Recovery {
  import opened Basics
  import opened Validators
  import opened States

  type AppState = nat
  type TxResult = nat

  /** EndBlock's answer; `valid` says the updates pass the checks made on them. */
  datatype EndBlock = EndBlock(newVals: Option<ValidatorSet>, newParams: Option<ConsensusParams>, valid: bool)

  datatype AbciResponses = AbciResponses(deliver: seq<TxResult>, end: EndBlock)

  datatype InitChain = InitChain(app: AppState, appHash: Bytes, vals: Option<ValidatorSet>, params: Option<ConsensusParams>)

  /** The application, a deterministic machine; an empty hash is 0. */
  datatype Machine = Machine(
    init: Genesis -> InitChain,
    begin: (AppState, Header) -> AppState,
    deliver: (AppState, Bytes) -> (AppState, TxResult),
    end: (AppState, int) -> (AppState, EndBlock),
    hash: AppState -> Bytes,
    resultsHash: seq<TxResult> -> Bytes)

  /** What survives a crash: block store, state store, and the application's last commit. */
  datatype Disk = Disk(
    base: int,
    height: int,
    blocks: map<int, Block>,
    state: State,
    responses: map<int, AbciResponses>,
    appHeight: int,
    app: AppState)

  /** The connection blocks are executed on: the real application, or the stand-in that plays saved responses back. */
  datatype Conn = Real | Mock(appHash: Bytes, saved: AbciResponses)

  datatype Panic = NoBlock | NoResponses | MockExhausted | BlockHashMismatch | StateHashMismatch
                 | StateAboveStore | StoreTooFarAhead | Uncovered

  datatype End =
    | Done(appHash: Bytes)
    | InvalidBlock
    | BadUpdates
    | NegativeAppHeight
    | AppTooLow
    | AppTooHigh
    | Panicked(panic: Panic)

  datatype Trace = Trace(disks: seq<Disk>, received: seq<Block>, end: End)

  const EMPTY_RESULTS_HASH: Bytes := 1

  // --- executing and applying a block ---------------------------------------

  function ExecTxs(m: Machine, a: AppState, txs: seq<Bytes>): (AppState, seq<TxResult>) {
    if txs == [] then (a, [])
    else
      var (b, rs) := ExecTxs(m, a, txs[..|txs| - 1]);
      var (c, r) := m.deliver(b, txs[|txs| - 1]);
      (c, rs + [r])
  }

  function Exec(m: Machine, a: AppState, b: Block): (AppState, AbciResponses) {
    var (a1, results) := ExecTxs(m, m.begin(a, b.header), b.txs);
    var (a2, end) := m.end(a1, b.header.height);
    (a2, AbciResponses(results, end))
  }

  function NextState(m: Machine, s: State, b: Block, r: AbciResponses, appHash: Bytes): State {
    UpdateState(s, b.id, b.header, Responses(r.end.newVals, r.end.newParams, m.resultsHash(r.deliver))).(appHash := appHash)
  }

  function WithResponses(d: Disk, h: int, r: AbciResponses): Disk { d.(responses := d.responses[h := r]) }

  function WithApp(d: Disk, h: int, a: AppState): Disk { d.(appHeight := h, app := a) }

  /** ApplyBlock: save the responses, commit the application, save the state. */
  function Apply(m: Machine, d: Disk, b: Block, conn: Conn): Trace {
    if !ValidateBlock(d.state, b) then Trace([], [], InvalidBlock)
    else if conn.Mock? && |conn.saved.deliver| < |b.txs| then Trace([], [], Panicked(MockExhausted))
    else
      var h := b.header.height;
      var (a, r) := if conn.Real? then Exec(m, d.app, b) else (d.app, AbciResponses(conn.saved.deliver[..|b.txs|], conn.saved.end));
      var received := if conn.Real? then [b] else [];
      var d1 := WithResponses(d, h, r);
      if !r.end.valid then Trace([d1], received, BadUpdates)
      else
        var d2 := if conn.Real? then WithApp(d1, h, a) else d1;
        var appHash := if conn.Real? then m.hash(a) else conn.appHash;
        Trace([d1, d2, d2.(state := NextState(m, d.state, b, r, appHash))], received, Done(appHash))
  }

  /** finalizeCommit: the block goes to the block store first, unless it is there already. */
  function Finalize(m: Machine, d: Disk, b: Block): Trace {
    var h := b.header.height;
    if !ValidateBlock(d.state, b) then Trace([], [], InvalidBlock)
    else if d.height < h then
      var d1 := d.(base := if d.base == 0 then h else d.base, height := h, blocks := d.blocks[h := b]);
      var rest := Apply(m, d1, b, Real);
      Trace([d1] + rest.disks, rest.received, rest.end)
    else Apply(m, d, b, Real)
  }

  // --- the handshake ---------------------------------------------------------

  function InitState(s: State, i: InitChain): State {
    s.(appHash := if i.appHash != 0 then i.appHash else s.appHash,
       vals := if i.vals.Some? then i.vals.value else s.vals,
       nextVals := if i.vals.Some? then i.vals.value else s.nextVals,
       params := if i.params.Some? then i.params.value else s.params,
       lastResultsHash := EMPTY_RESULTS_HASH)
  }

  /** An application at height zero is sent InitChain; a state at height zero takes its answer over. */
  function Initialized(m: Machine, g: Genesis, d: Disk): Disk {
    if d.appHeight != 0 then d
    else d.(app := m.init(g).app,
            state := if d.state.lastBlockHeight == 0 then InitState(d.state, m.init(g)) else d.state)
  }

  /** The loop of replayBlocks: blocks `i` to `last` are executed and committed without touching the state. */
  function ReplayLoop(m: Machine, d: Disk, i: int, last: int, appHash: Bytes): Trace
    decreases last - i
  {
    if i > last then Trace([], [], Done(appHash))
    else if i !in d.blocks then Trace([], [], Panicked(NoBlock))
    else if appHash != 0 && appHash != d.blocks[i].header.appHash then Trace([], [], Panicked(BlockHashMismatch))
    else
      var a := Exec(m, d.app, d.blocks[i]).0;
      var d' := WithApp(d, d.blocks[i].header.height, a);
      var rest := ReplayLoop(m, d', i + 1, last, m.hash(a));
      Trace([d'] + rest.disks, [d.blocks[i]] + rest.received, rest.end)
  }

  function Last(d: Disk, t: Trace): Disk { if t.disks == [] then d else t.disks[|t.disks| - 1] }

  function ReplayBlock(m: Machine, d: Disk, h: int, conn: Conn): Trace {
    if h !in d.blocks then Trace([], [], Panicked(NoBlock)) else Apply(m, d, d.blocks[h], conn)
  }

  function FirstBlock(s: State, appHeight: int): int { if appHeight + 1 == 1 then s.initialHeight else appHeight + 1 }

  function ReplayBlocks(m: Machine, d: Disk, mutateState: bool): Trace {
    var loop := ReplayLoop(m, d, FirstBlock(d.state, d.appHeight), if mutateState then d.height - 1 else d.height, 0);
    if !loop.end.Done? then loop
    else if !mutateState then
      if loop.end.appHash == d.state.appHash then loop else loop.(end := Panicked(StateHashMismatch))
    else
      var final := ReplayBlock(m, Last(d, loop), d.height, Real);
      Trace(loop.disks + final.disks, loop.received + final.received, final.end)
  }

  /** The cases of ReplayBlocks once the application is initialized; `appHeight` and `appHash` are what it reported. */
  function Replay(m: Machine, d: Disk, appHeight: int, appHash: Bytes): Trace {
    var stateHeight := d.state.lastBlockHeight;
    var check := if appHash == d.state.appHash then Done(appHash) else Panicked(StateHashMismatch);
    if d.height == 0 then Trace([], [], check)
    else if appHeight == 0 && d.state.initialHeight < d.base then Trace([], [], AppTooLow)
    else if 0 < appHeight < d.base - 1 then Trace([], [], AppTooLow)
    else if d.height < appHeight then Trace([], [], AppTooHigh)
    else if d.height < stateHeight then Trace([], [], Panicked(StateAboveStore))
    else if d.height > stateHeight + 1 then Trace([], [], Panicked(StoreTooFarAhead))
    else if d.height == stateHeight && appHeight < d.height then ReplayBlocks(m, d, false)
    else if d.height == stateHeight && appHeight == d.height then Trace([], [], check)
    else if d.height == stateHeight + 1 && appHeight < stateHeight then ReplayBlocks(m, d, true)
    else if d.height == stateHeight + 1 && appHeight == stateHeight then ReplayBlock(m, d, d.height, Real)
    else if d.height == stateHeight + 1 && appHeight == d.height then
      if d.height !in d.responses then Trace([], [], Panicked(NoResponses))
      else ReplayBlock(m, d, d.height, Mock(appHash, d.responses[d.height]))
    else Trace([], [], Panicked(Uncovered))
  }

  function Handshake(m: Machine, g: Genesis, d: Disk): Trace {
    if d.appHeight < 0 then Trace([], [], NegativeAppHeight)
    else
      var d0 := Initialized(m, g, d);
      var t := Replay(m, d0, d.appHeight, if d.appHeight == 0 then m.init(g).appHash else m.hash(d.app));
      t.(disks := [d0] + t.disks)
  }

  // --- the node as an object -------------------------------------------------

  /**
   The node's durable parts, updated in place.  `trail` records every disk
   there ever was, `received` every block the real application executed.
   */
  class Node {
    const m: Machine
    const g: Genesis
    var disk: Disk
    var nBlocks: nat
    ghost var trail: seq<Disk>
    ghost var received: seq<Block>

    ghost predicate Did(t: Trace, disk0: Disk, trail0: seq<Disk>, received0: seq<Block>)
      reads this
    {
      disk == Last(disk0, t) && trail == trail0 + t.disks && received == received0 + t.received
    }

    constructor (m: Machine, g: Genesis, d: Disk)
      ensures this.m == m && this.g == g && disk == d && trail == [] && received == [] && nBlocks == 0
    {
      this.m, this.g, disk, nBlocks := m, g, d, 0;
      trail, received := [], [];
    }

    method Write(d: Disk)
      modifies this`disk, this`trail
      ensures disk == d && trail == old(trail) + [d]
    {
      disk := d;
      trail := trail + [d];
    }

    /** execBlockOnProxyApp: BeginBlock, one DeliverTx per transaction, EndBlock. */
    method ExecBlock(b: Block, conn: Conn) returns (ok: bool, a: AppState, r: AbciResponses)
      modifies this`received
      ensures conn.Real? ==> ok && (a, r) == Exec(m, disk.app, b) && received == old(received) + [b]
      ensures conn.Mock? ==> received == old(received) && ok == (|b.txs| <= |conn.saved.deliver|)
      ensures conn.Mock? && ok ==> a == disk.app && r == AbciResponses(conn.saved.deliver[..|b.txs|], conn.saved.end)
    {
      a := disk.app;
      r := AbciResponses([], EndBlock(None, None, false));
      if conn.Real? {
        received := received + [b];
        a := m.begin(a, b.header);
      }
      var txCount := 0;
      var i := 0;
      while i < |b.txs|
        invariant 0 <= i <= |b.txs| && txCount == i
        invariant conn.Real? ==> (a, r.deliver) == ExecTxs(m, m.begin(disk.app, b.header), b.txs[..i])
        invariant conn.Mock? ==> a == disk.app && i <= |conn.saved.deliver| && r.deliver == conn.saved.deliver[..i]
      {
        var result;
        if conn.Real? {
          assert b.txs[..i + 1][..i] == b.txs[..i];
          var step := m.deliver(a, b.txs[i]);
          a, result := step.0, step.1;
        } else {
          if txCount >= |conn.saved.deliver| {
            return false, a, r;
          }
          result := conn.saved.deliver[txCount];
        }
        txCount := txCount + 1;
        r := r.(deliver := r.deliver + [result]);
        i := i + 1;
      }
      assert b.txs[..i] == b.txs;
      if conn.Real? {
        var step := m.end(a, b.header.height);
        a := step.0;
        r := r.(end := step.1);
      } else {
        r := r.(end := conn.saved.end);
      }
      ok := true;
    }

    method ApplyBlock(b: Block, conn: Conn) returns (end: End)
      modifies this
      ensures var t := Apply(m, old(disk), b, conn);
              end == t.end && Did(t, old(disk), old(trail), old(received)) && nBlocks == old(nBlocks)
    {
      hide ValidateBlock; hide Exec;
      if !ValidateBlock(disk.state, b) {
        return InvalidBlock;
      }
      var h := b.header.height;
      var ok, a, r := ExecBlock(b, conn);
      if !ok {
        return Panicked(MockExhausted);
      }
      Write(WithResponses(disk, h, r));
      if !r.end.valid {
        return BadUpdates;
      }
      var appHash;
      if conn.Real? {
        Write(WithApp(disk, h, a));
        appHash := m.hash(a);
      } else {
        Write(disk);
        appHash := conn.appHash;
      }
      Write(disk.(state := NextState(m, disk.state, b, r, appHash)));
      return Done(appHash);
    }

    method FinalizeCommit(b: Block) returns (end: End)
      modifies this
      ensures var t := Finalize(m, old(disk), b);
              end == t.end && Did(t, old(disk), old(trail), old(received)) && nBlocks == old(nBlocks)
    {
      hide ValidateBlock; hide Apply;
      if !ValidateBlock(disk.state, b) {
        return InvalidBlock;
      }
      var h := b.header.height;
      if disk.height < h {
        Write(disk.(base := if disk.base == 0 then h else disk.base, height := h, blocks := disk.blocks[h := b]));
      }
      end := ApplyBlock(b, Real);
    }

    method ReplayOne(h: int, conn: Conn) returns (end: End)
      modifies this
      ensures var t := ReplayBlock(m, old(disk), h, conn);
              end == t.end && Did(t, old(disk), old(trail), old(received))
      ensures nBlocks == old(nBlocks) + if end.Done? then 1 else 0
      ensures end.Done? ==> |received| == |old(received)| + if conn.Real? then 1 else 0
    {
      if h in disk.blocks { assert Apply(m, disk, disk.blocks[h], conn).end.Done? ==>
                                     |Apply(m, disk, disk.blocks[h], conn).received| == if conn.Real? then 1 else 0; }
      hide Apply;
      if h !in disk.blocks {
        return Panicked(NoBlock);
      }
      end := ApplyBlock(disk.blocks[h], conn);
      if end.Done? {
        nBlocks := nBlocks + 1;
      }
    }

    /** The loop of replayBlocks. */
    method ExecRange(first: int, last: int) returns (end: End)
      modifies this
      ensures var t := ReplayLoop(m, old(disk), first, last, 0);
              end == t.end && Did(t, old(disk), old(trail), old(received))
      ensures disk == old(disk).(app := disk.app, appHeight := disk.appHeight)
      ensures nBlocks == old(nBlocks) + |received| - |old(received)|
    {
      hide Exec; hide Ahead; hide ReplayLoop;
      var appHash: Bytes := 0;
      var i := first;
      ghost var whole := ReplayLoop(m, disk, i, last, 0);
      NothingYet(whole, disk, trail, received);
      while i <= last
        invariant disk == old(disk).(app := disk.app, appHeight := disk.appHeight)
        invariant nBlocks == old(nBlocks) + |received| - |old(received)|
        invariant Ahead(whole, old(disk), old(trail), old(received),
                        ReplayLoop(m, disk, i, last, appHash), disk, trail, received)
        decreases last - i
      {
        LoopUnrolls(m, disk, i, last, appHash);
        ghost var d := disk;
        if i !in disk.blocks {
          AllDone(whole, old(disk), old(trail), old(received), disk, trail, received, Panicked(NoBlock));
          return Panicked(NoBlock);
        }
        var block := disk.blocks[i];
        if appHash != 0 && appHash != block.header.appHash {
          AllDone(whole, old(disk), old(trail), old(received), disk, trail, received, Panicked(BlockHashMismatch));
          return Panicked(BlockHashMismatch);
        }
        var ok, a, _ := ExecBlock(block, Real);
        Write(WithApp(disk, block.header.height, a));
        appHash := m.hash(a);
        nBlocks := nBlocks + 1;
        i := i + 1;
        OneMore(whole, old(disk), old(trail), old(received), d, trail[..|trail| - 1], received[..|received| - 1],
                disk, block, ReplayLoop(m, disk, i, last, appHash));
      }
      LoopUnrolls(m, disk, i, last, appHash);
      AllDone(whole, old(disk), old(trail), old(received), disk, trail, received, Done(appHash));
      return Done(appHash);
    }

    method ReplayMany(mutateState: bool) returns (end: End)
      modifies this
      ensures var t := ReplayBlocks(m, old(disk), mutateState);
              end == t.end && Did(t, old(disk), old(trail), old(received))
      ensures end.Done? ==> nBlocks == old(nBlocks) + |received| - |old(received)|
    {
      hide Exec; hide Apply; hide ReplayLoop; hide ReplayBlock;
      end := ExecRange(FirstBlock(disk.state, disk.appHeight), if mutateState then disk.height - 1 else disk.height);
      if !end.Done? {
        return;
      }
      if mutateState {
        end := ReplayOne(disk.height, Real);
      } else if end.appHash != disk.state.appHash {
        end := Panicked(StateHashMismatch);
      }
    }

    /** The handshake, with the edge cases of ReplayBlocks in the source's order. */
    method Recover() returns (end: End)
      modifies this
      ensures var t := Handshake(m, g, old(disk));
              end == t.end && Did(t, old(disk), old(trail), old(received))
    {
      hide Exec; hide Apply; hide ReplayLoop; hide ReplayBlock; hide ReplayBlocks;
      var appHeight := disk.appHeight;
      if appHeight < 0 {
        return NegativeAppHeight;
      }
      var appHash := m.hash(disk.app);
      if appHeight == 0 {
        appHash := m.init(g).appHash;
      }
      Write(Initialized(m, g, disk));
      ghost var d0, trail0 := disk, trail;
      end := ReplayFrom(appHeight, appHash);
      assert trail == old(trail) + ([d0] + Replay(m, d0, appHeight, appHash).disks);
    }

    method ReplayFrom(appHeight: int, appHash: Bytes) returns (end: End)
      requires appHeight == disk.appHeight
      modifies this
      ensures var t := Replay(m, old(disk), appHeight, appHash);
              end == t.end && Did(t, old(disk), old(trail), old(received))
    {
      hide Exec; hide Apply; hide ReplayLoop; hide ReplayBlock; hide ReplayBlocks;
      var storeHeight, stateHeight := disk.height, disk.state.lastBlockHeight;
      var check := if appHash == disk.state.appHash then Done(appHash) else Panicked(StateHashMismatch);
      if storeHeight == 0 {
        return check;
      }
      if appHeight == 0 && disk.state.initialHeight < disk.base {
        return AppTooLow;
      }
      if appHeight > 0 && appHeight < disk.base - 1 {
        return AppTooLow;
      }
      if storeHeight < appHeight {
        return AppTooHigh;
      }
      if storeHeight < stateHeight {
        return Panicked(StateAboveStore);
      }
      if storeHeight > stateHeight + 1 {
        return Panicked(StoreTooFarAhead);
      }
      if storeHeight == stateHeight {
        if appHeight < storeHeight {
          end := ReplayMany(false);
          return;
        } else if appHeight == storeHeight {
          return check;
        }
      } else if storeHeight == stateHeight + 1 {
        if appHeight < stateHeight {
          end := ReplayMany(true);
          return;
        } else if appHeight == stateHeight {
          end := ReplayOne(storeHeight, Real);
          return;
        } else if appHeight == storeHeight {
          if storeHeight !in disk.responses {
            return Panicked(NoResponses);
          }
          end := ReplayOne(storeHeight, Mock(appHash, disk.responses[storeHeight]));
          return;
        }
      }
      return Panicked(Uncovered);
    }
  }

  // --- the loop's bookkeeping -------------------------------------------------

  /** What was done so far plus what the rest will do is the whole. */
  ghost predicate Ahead(whole: Trace, d0: Disk, trail0: seq<Disk>, received0: seq<Block>,
                        rest: Trace, d: Disk, trail: seq<Disk>, received: seq<Block>)
  {
    && whole.end == rest.end && Last(d0, whole) == Last(d, rest)
    && trail0 + whole.disks == trail + rest.disks
    && received0 + whole.received == received + rest.received
  }

  lemma NothingYet(whole: Trace, d0: Disk, trail0: seq<Disk>, received0: seq<Block>)
    ensures Ahead(whole, d0, trail0, received0, whole, d0, trail0, received0)
  {
  }

  lemma OneMore(whole: Trace, d0: Disk, trail0: seq<Disk>, received0: seq<Block>,
                d: Disk, trail: seq<Disk>, received: seq<Block>, d': Disk, b: Block, rest: Trace)
    requires Ahead(whole, d0, trail0, received0, Trace([d'] + rest.disks, [b] + rest.received, rest.end), d, trail, received)
    ensures Ahead(whole, d0, trail0, received0, rest, d', trail + [d'], received + [b])
  {
    assert trail + ([d'] + rest.disks) == trail + [d'] + rest.disks;
    assert received + ([b] + rest.received) == received + [b] + rest.received;
  }

  lemma AllDone(whole: Trace, d0: Disk, trail0: seq<Disk>, received0: seq<Block>,
                d: Disk, trail: seq<Disk>, received: seq<Block>, end: End)
    requires Ahead(whole, d0, trail0, received0, Trace([], [], end), d, trail, received)
    ensures whole.end == end && Last(d0, whole) == d && trail == trail0 + whole.disks && received == received0 + whole.received
  {
  }

  lemma LoopUnrolls(m: Machine, d: Disk, i: int, last: int, appHash: Bytes)
    ensures ReplayLoop(m, d, i, last, appHash) ==
      if i > last then Trace([], [], Done(appHash))
      else if i !in d.blocks then Trace([], [], Panicked(NoBlock))
      else if appHash != 0 && appHash != d.blocks[i].header.appHash then Trace([], [], Panicked(BlockHashMismatch))
      else
        var a := Exec(m, d.app, d.blocks[i]).0;
        var d' := WithApp(d, d.blocks[i].header.height, a);
        var rest := ReplayLoop(m, d', i + 1, last, m.hash(a));
        Trace([d'] + rest.disks, [d.blocks[i]] + rest.received, rest.end)
  {
  }
}
