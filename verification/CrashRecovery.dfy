/**
 A crash anywhere, while a block is finalized or while the handshake runs,
 leaves a disk from which the handshake reaches the very state and application
 an uninterrupted run has.
 */
module CrashRecovery {
  import opened Basics
  import opened Validators
  import opened States
  import opened Recovery

  /** A chain of blocks from genesis and the application that runs it. */
  datatype Chain = Chain(m: Machine, g: Genesis, blocks: seq<Block>)

  /** The height of the k-th block; 0 before the first. */
  function HeightOf(c: Chain, k: nat): int { if k == 0 then 0 else c.g.initialHeight + k - 1 }

  // --- the uninterrupted run ---------------------------------------------------

  function AppAfter(c: Chain, k: nat): AppState
    requires k <= |c.blocks|
  {
    if k == 0 then c.m.init(c.g).app else Exec(c.m, AppAfter(c, k - 1), c.blocks[k - 1]).0
  }

  function ResponsesAfter(c: Chain, k: nat): AbciResponses
    requires 0 < k <= |c.blocks|
  {
    Exec(c.m, AppAfter(c, k - 1), c.blocks[k - 1]).1
  }

  function StateAfter(c: Chain, k: nat): State
    requires k <= |c.blocks|
  {
    if k == 0 then InitState(MakeGenesisState(c.g), c.m.init(c.g))
    else NextState(c.m, StateAfter(c, k - 1), c.blocks[k - 1], ResponsesAfter(c, k), c.m.hash(AppAfter(c, k)))
  }

  /** Every block was valid for the state it was applied to. */
  ghost predicate GoodChain(c: Chain) {
    && c.g.initialHeight > 0
    && forall k: nat :: k < |c.blocks| ==> GoodBlock(c, k)
  }

  ghost predicate GoodBlock(c: Chain, k: nat)
    requires k < |c.blocks|
  {
    ValidateBlock(StateAfter(c, k), c.blocks[k]) && ResponsesAfter(c, k + 1).end.valid
  }

  lemma {:induction false} StateFacts(c: Chain, k: nat)
    requires GoodChain(c) && k <= |c.blocks|
    ensures StateAfter(c, k).lastBlockHeight == HeightOf(c, k)
    ensures StateAfter(c, k).initialHeight == c.g.initialHeight
    ensures k > 0 ==> StateAfter(c, k).appHash == c.m.hash(AppAfter(c, k))
  {
    hide Exec;
    if k > 0 {
      StateFacts(c, k - 1);
      assert GoodBlock(c, k - 1);
    }
  }

  lemma BlockFacts(c: Chain, k: nat)
    requires GoodChain(c) && k < |c.blocks|
    ensures c.blocks[k].header.height == HeightOf(c, k + 1)
    ensures c.blocks[k].header.appHash == StateAfter(c, k).appHash
    ensures ValidateBlock(StateAfter(c, k), c.blocks[k])
    ensures |ResponsesAfter(c, k + 1).deliver| == |c.blocks[k].txs|
    ensures ResponsesAfter(c, k + 1).end.valid
  {
    StateFacts(c, k);
    assert GoodBlock(c, k);
    OneResultPerTx(c.m, c.m.begin(AppAfter(c, k), c.blocks[k].header), c.blocks[k].txs);
    hide ExecTxs;
  }

  lemma {:induction false} OneResultPerTx(m: Machine, a: AppState, txs: seq<Bytes>)
    ensures |ExecTxs(m, a, txs).1| == |txs|
  {
    if txs != [] { OneResultPerTx(m, a, txs[..|txs| - 1]); }
  }

  // --- disks -------------------------------------------------------------------

  ghost predicate HoldsBlocks(c: Chain, d: Disk, k: nat) {
    && k <= |c.blocks|
    && d.height == HeightOf(c, k)
    && d.base == (if k == 0 then 0 else c.g.initialHeight)
    && forall x: nat :: x < k ==> HoldsBlock(c, d, x)
  }

  ghost predicate HoldsBlock(c: Chain, d: Disk, x: nat)
    requires x < |c.blocks|
  {
    HeightOf(c, x + 1) in d.blocks && d.blocks[HeightOf(c, x + 1)] == c.blocks[x]
  }

  /** The state store is at block j; before the first handshake it may hold the bare genesis state. */
  ghost predicate StateAt(c: Chain, d: Disk, k: nat, j: nat) {
    && j <= k <= |c.blocks| && k <= j + 1
    && (d.state == StateAfter(c, j) || (k == 0 && d.state == MakeGenesisState(c.g)))
  }

  /** The application's last commit is block i; at height zero its state does not matter, it gets InitChain. */
  ghost predicate AppAt(c: Chain, d: Disk, k: nat, i: nat) {
    && i <= k <= |c.blocks|
    && d.appHeight == HeightOf(c, i)
    && (i > 0 ==> d.app == AppAfter(c, i))
  }

  /** Block store at block k, state at j, application at i. */
  ghost predicate Recoverable(c: Chain, d: Disk, k: nat, j: nat, i: nat) {
    && HoldsBlocks(c, d, k) && StateAt(c, d, k, j) && AppAt(c, d, k, i)
    && (j < k == i ==> HeightOf(c, k) in d.responses && d.responses[HeightOf(c, k)] == ResponsesAfter(c, k))
  }

  ghost predicate AnyRecoverable(c: Chain, d: Disk) {
    exists k: nat, j: nat, i: nat :: Recoverable(c, d, k, j, i)
  }

  ghost predicate AllRecoverable(c: Chain, disks: seq<Disk>) {
    forall x :: 0 <= x < |disks| ==> AnyRecoverable(c, disks[x])
  }

  /** All three at block k, as in the uninterrupted run. */
  ghost predicate Synced(c: Chain, d: Disk, k: nat) {
    Recoverable(c, d, k, k, k) && d.state == StateAfter(c, k) && d.app == AppAfter(c, k)
  }

  lemma AllRecoverableConcat(c: Chain, a: seq<Disk>, b: seq<Disk>)
    requires AllRecoverable(c, a) && AllRecoverable(c, b)
    ensures AllRecoverable(c, a + b)
  {
  }

  lemma AllRecoverableOne(c: Chain, d: Disk, rest: seq<Disk>)
    requires AnyRecoverable(c, d) && AllRecoverable(c, rest)
    ensures AllRecoverable(c, [d] + rest)
  {
  }

  // --- applying one block --------------------------------------------------------

  /**
   Applying block k with state and application right before it.  A crash in
   between leaves a recoverable disk, and the end is in sync.
   */
  lemma ApplyReal(c: Chain, d: Disk, k: nat)
    requires GoodChain(c) && 0 < k <= |c.blocks|
    requires HoldsBlocks(c, d, k) && d.state == StateAfter(c, k - 1)
    requires d.appHeight == HeightOf(c, k - 1) && d.app == AppAfter(c, k - 1)
    ensures var t := Apply(c.m, d, c.blocks[k - 1], Real);
            && t.end == Done(StateAfter(c, k).appHash) && t.received == [c.blocks[k - 1]]
            && |t.disks| == 3 && AllRecoverable(c, t.disks) && Synced(c, t.disks[2], k)
  {
    hide ExecTxs; hide ValidateBlock; hide NextState; hide GoodBlock;
    BlockFacts(c, k - 1);
    StateFacts(c, k);
    var h, r, a := HeightOf(c, k), ResponsesAfter(c, k), AppAfter(c, k);
    var d1 := WithResponses(d, h, r);
    var d2 := WithApp(d1, h, a);
    var d3 := d2.(state := StateAfter(c, k));
    assert Apply(c.m, d, c.blocks[k - 1], Real) == Trace([d1, d2, d3], [c.blocks[k - 1]], Done(c.m.hash(a)));
    hide Apply; hide Exec; hide StateAfter; hide AppAfter; hide ResponsesAfter; hide HoldsBlock;
    KeepBlocks(c, d, d1, k);
    KeepBlocks(c, d, d2, k);
    KeepBlocks(c, d, d3, k);
    hide HoldsBlocks;
    assert Recoverable(c, d1, k, k - 1, k - 1);
    assert Recoverable(c, d2, k, k - 1, k);
    assert Recoverable(c, d3, k, k, k);
  }

  lemma KeepBlocks(c: Chain, d: Disk, d': Disk, k: nat)
    requires HoldsBlocks(c, d, k) && d'.blocks == d.blocks && d'.height == d.height && d'.base == d.base
    ensures HoldsBlocks(c, d', k)
  {
    forall x: nat | x < k ensures HoldsBlock(c, d', x) { assert HoldsBlock(c, d, x); }
  }

  /** The stand-in plays the saved responses back: the state ends up the same and the application is left alone. */
  lemma ApplyMock(c: Chain, d: Disk, k: nat)
    requires GoodChain(c) && 0 < k <= |c.blocks|
    requires Recoverable(c, d, k, k - 1, k) && d.state == StateAfter(c, k - 1)
    ensures var t := Apply(c.m, d, c.blocks[k - 1], Mock(c.m.hash(d.app), ResponsesAfter(c, k)));
            && t.end == Done(StateAfter(c, k).appHash) && t.received == []
            && |t.disks| == 3 && AllRecoverable(c, t.disks) && Synced(c, t.disks[2], k)
  {
    hide ExecTxs; hide Exec; hide ValidateBlock; hide NextState; hide GoodBlock;
    BlockFacts(c, k - 1);
    StateFacts(c, k);
    var b, r := c.blocks[k - 1], ResponsesAfter(c, k);
    assert r.deliver[..|b.txs|] == r.deliver;
    var d1 := WithResponses(d, HeightOf(c, k), r);
    var d2 := d1.(state := StateAfter(c, k));
    assert StateAfter(c, k) == NextState(c.m, d.state, b, r, c.m.hash(d.app));
    hide StateAfter; hide AppAfter; hide ResponsesAfter; hide HoldsBlock;
    assert Apply(c.m, d, b, Mock(c.m.hash(d.app), r)) == Trace([d1, d1, d2], [], Done(c.m.hash(d.app)));
    hide Apply;
    KeepBlocks(c, d, d1, k);
    KeepBlocks(c, d, d2, k);
    hide HoldsBlocks;
    assert Recoverable(c, d1, k, k - 1, k);
    assert Recoverable(c, d2, k, k, k);
  }

  // --- finalizing ----------------------------------------------------------------

  /**
   Finalizing block k + 1 on a node in sync.  Wherever it stops, the store is
   at the state's block or one past it, and so is the application, which never
   passes the store; if it runs through, the node is in sync again.
   */
  lemma FinalizeRecoverable(c: Chain, d: Disk, k: nat)
    requires GoodChain(c) && k < |c.blocks| && Synced(c, d, k)
    ensures var t := Finalize(c.m, d, c.blocks[k]);
            && AllRecoverable(c, t.disks) && t.end == Done(StateAfter(c, k + 1).appHash)
            && t.received == [c.blocks[k]] && t.disks != [] && Synced(c, Last(d, t), k + 1)
  {
    hide Exec; hide NextState; hide ExecTxs;
    BlockFacts(c, k);
    assert d.height == HeightOf(c, k) && d.state == StateAfter(c, k);
    var b := c.blocks[k];
    var d1 := BlockSaved(d, b);
    BlockSavedOk(c, d, k);
    ApplyReal(c, d1, k + 1);
    hide ValidateBlock; hide Apply; hide AllRecoverable; hide Synced; hide StateAfter; hide Recoverable; hide AppAfter;
    hide HoldsBlocks; hide ResponsesAfter;
    AllRecoverableOne(c, d1, Apply(c.m, d1, b, Real).disks);
  }

  function BlockSaved(d: Disk, b: Block): Disk {
    var h := b.header.height;
    d.(base := if d.base == 0 then h else d.base, height := h, blocks := d.blocks[h := b])
  }

  lemma BlockSavedOk(c: Chain, d: Disk, k: nat)
    requires GoodChain(c) && k < |c.blocks| && Synced(c, d, k)
    ensures var d1 := BlockSaved(d, c.blocks[k]);
            HoldsBlocks(c, d1, k + 1) && Recoverable(c, d1, k + 1, k, k) && AnyRecoverable(c, d1)
  {
    hide Exec; hide NextState; hide ExecTxs; hide ValidateBlock;
    BlockFacts(c, k);
    hide StateAfter; hide AppAfter; hide ResponsesAfter;
    var d1 := BlockSaved(d, c.blocks[k]);
    forall x: nat | x < k + 1 ensures HoldsBlock(c, d1, x) {
      if x < k { assert HoldsBlock(c, d, x); }
    }
    assert Recoverable(c, d1, k + 1, k, k);
  }

  /** The heights on a recoverable disk. */
  lemma HeightsAfterCrash(c: Chain, d: Disk, k: nat, j: nat, i: nat)
    requires GoodChain(c) && Recoverable(c, d, k, j, i)
    ensures c.g.initialHeight == 1 ==> d.height == d.state.lastBlockHeight || d.height == d.state.lastBlockHeight + 1
    ensures d.appHeight <= d.height && d.state.lastBlockHeight <= d.height
  {
    StateFacts(c, j);
  }

  // --- the handshake ---------------------------------------------------------------

  /** One turn of the loop moves the application one block on. */
  lemma LoopStep(c: Chain, d: Disk, k: nat, j: nat, i: nat, last: nat, appHash: Bytes)
    requires GoodChain(c) && i < last <= j
    requires Recoverable(c, d, k, j, i) && d.app == AppAfter(c, i)
    requires appHash == 0 || (i > 0 && appHash == c.m.hash(AppAfter(c, i)))
    ensures var d' := WithApp(d, HeightOf(c, i + 1), AppAfter(c, i + 1));
            var appHash' := c.m.hash(d'.app);
            var rest := ReplayLoop(c.m, d', c.g.initialHeight + i + 1, HeightOf(c, last), appHash');
            && Recoverable(c, d', k, j, i + 1) && AnyRecoverable(c, d') && appHash' == StateAfter(c, i + 1).appHash
            && ReplayLoop(c.m, d, c.g.initialHeight + i, HeightOf(c, last), appHash) ==
                 Trace([d'] + rest.disks, [c.blocks[i]] + rest.received, rest.end)
  {
    hide ValidateBlock; hide NextState; hide ExecTxs;
    assert HoldsBlock(c, d, i);
    BlockFacts(c, i);
    StateFacts(c, i);
    StateFacts(c, i + 1);
    LoopUnrolls(c.m, d, c.g.initialHeight + i, HeightOf(c, last), appHash);
    assert AppAfter(c, i + 1) == Exec(c.m, d.app, c.blocks[i]).0;
    hide Exec; hide ReplayLoop; hide StateAfter; hide ResponsesAfter;
    var d' := WithApp(d, HeightOf(c, i + 1), AppAfter(c, i + 1));
    KeepBlocks(c, d, d', k);
    assert Recoverable(c, d', k, j, i + 1);
  }

  /** The loop took the application from block i to block `last` and touched nothing else. */
  ghost predicate Replays(c: Chain, t: Trace, d: Disk, k: nat, j: nat, i: nat, last: nat, appHash: Bytes)
    requires i <= last <= |c.blocks|
  {
    var d' := Last(d, t);
    && t.end == Done(if i < last then StateAfter(c, last).appHash else appHash)
    && t.received == c.blocks[i..last] && AllRecoverable(c, t.disks)
    && Recoverable(c, d', k, j, last) && d'.app == AppAfter(c, last) && d'.state == d.state
    && d'.height == d.height && d'.blocks == d.blocks && d'.appHeight == HeightOf(c, last)
  }

  lemma ReplaysMore(c: Chain, rest: Trace, d: Disk, d': Disk, k: nat, j: nat, i: nat, last: nat, appHash: Bytes)
    requires i < last <= |c.blocks|
    requires Replays(c, rest, d', k, j, i + 1, last, StateAfter(c, i + 1).appHash) && AnyRecoverable(c, d')
    requires d'.state == d.state && d'.height == d.height && d'.blocks == d.blocks
    ensures Replays(c, Trace([d'] + rest.disks, [c.blocks[i]] + rest.received, rest.end), d, k, j, i, last, appHash)
  {
    hide AppAfter; hide StateAfter; hide Recoverable; hide AnyRecoverable;
    AllRecoverableOne(c, d', rest.disks);
    hide AllRecoverable;
    assert c.blocks[i..last] == [c.blocks[i]] + c.blocks[i + 1..last];
  }

  lemma {:induction false} LoopReplays(c: Chain, d: Disk, k: nat, j: nat, i: nat, last: nat, appHash: Bytes)
    requires GoodChain(c) && i <= last <= j <= |c.blocks|
    requires Recoverable(c, d, k, j, i) && d.app == AppAfter(c, i)
    requires appHash == 0 || (i > 0 && appHash == c.m.hash(AppAfter(c, i)))
    ensures Replays(c, ReplayLoop(c.m, d, c.g.initialHeight + i, HeightOf(c, last), appHash), d, k, j, i, last, appHash)
    decreases last - i
  {
    hide Exec; hide NextState; hide AppAfter; hide StateAfter;
    if i < last {
      hide Recoverable; hide GoodChain; hide AnyRecoverable; hide Replays; hide ReplayLoop;
      LoopStep(c, d, k, j, i, last, appHash);
      var d' := WithApp(d, HeightOf(c, i + 1), AppAfter(c, i + 1));
      LoopReplays(c, d', k, j, i + 1, last, c.m.hash(d'.app));
      ReplaysMore(c, ReplayLoop(c.m, d', c.g.initialHeight + i + 1, HeightOf(c, last), c.m.hash(d'.app)),
                  d, d', k, j, i, last, appHash);
    } else {
      assert c.blocks[i..last] == [];
    }
  }

  /** InitChain is sent to an application at height zero, and repeating it changes nothing. */
  lemma InitializedOk(c: Chain, d: Disk, k: nat, j: nat, i: nat)
    requires GoodChain(c) && Recoverable(c, d, k, j, i)
    ensures var d0 := Initialized(c.m, c.g, d);
            && Recoverable(c, d0, k, j, i) && d0.app == AppAfter(c, i)
            && d0.state == StateAfter(c, j) && d0.appHeight == d.appHeight
  {
    StateFacts(c, j);
    KeepBlocks(c, d, Initialized(c.m, c.g, d), k);
    assert InitState(StateAfter(c, 0), c.m.init(c.g)) == StateAfter(c, 0);
  }

  /** Nothing but the first block's height being above 1, or a hash missing from InitChain's answer, is in the way. */
  ghost predicate CanRecover(c: Chain, k: nat, j: nat) {
    && (k == 0 ==> c.m.init(c.g).appHash != 0 || c.g.appHash == 0)
    && (k == 1 && j == 0 ==> c.g.initialHeight == 1)
  }

  ghost predicate Recovers(c: Chain, t: Trace, d: Disk, k: nat, received: seq<Block>)
    requires k <= |c.blocks|
  {
    && t.end == Done(StateAfter(c, k).appHash) && AllRecoverable(c, t.disks) && Synced(c, Last(d, t), k)
    && t.received == received
  }

  /** What a recoverable disk says about heights. */
  lemma DiskFacts(c: Chain, d: Disk, k: nat, j: nat, i: nat)
    requires GoodChain(c) && Recoverable(c, d, k, j, i) && d.state == StateAfter(c, j)
    ensures j <= k <= j + 1 && i <= k <= |c.blocks|
    ensures d.height == HeightOf(c, k) && d.appHeight == HeightOf(c, i) && d.state.lastBlockHeight == HeightOf(c, j)
    ensures d.base == if k == 0 then 0 else c.g.initialHeight
    ensures d.state.initialHeight == c.g.initialHeight > 0
    ensures k > 0 ==> d.height in d.blocks && d.blocks[d.height] == c.blocks[k - 1]
    ensures j < k == i ==> d.height in d.responses && d.responses[d.height] == ResponsesAfter(c, k)
  {
    hide Exec; hide NextState; hide AppAfter;
    StateFacts(c, j);
    if k > 0 { assert HoldsBlock(c, d, k - 1); }
  }

  lemma SyncedIs(c: Chain, d: Disk, k: nat)
    requires Recoverable(c, d, k, k, k) && d.state == StateAfter(c, k) && d.app == AppAfter(c, k)
    ensures Synced(c, d, k)
  {
  }

  lemma ReplayAllSynced(c: Chain, d: Disk, k: nat, i: nat)
    requires GoodChain(c) && i < k
    requires Recoverable(c, d, k, k, i) && d.app == AppAfter(c, i) && d.state == StateAfter(c, k)
    ensures Recovers(c, ReplayBlocks(c.m, d, false), d, k, c.blocks[i..k])
  {
    hide Exec; hide NextState; hide ExecTxs;
    DiskFacts(c, d, k, k, i);
    hide StateAfter; hide AppAfter; hide Recoverable; hide GoodChain; hide AnyRecoverable;
    assert FirstBlock(d.state, d.appHeight) == c.g.initialHeight + i;
    LoopReplays(c, d, k, k, i, k, 0);
    hide ReplayLoop; hide AllRecoverable;
    SyncedIs(c, Last(d, ReplayLoop(c.m, d, c.g.initialHeight + i, HeightOf(c, k), 0)), k);
    hide Synced;
  }

  /** The last block goes through ApplyBlock once the loop has brought the application up to it. */
  lemma ThenLastBlock(c: Chain, loop: Trace, d: Disk, k: nat, i: nat)
    requires GoodChain(c) && 0 < k <= |c.blocks| && i <= k - 1
    requires Replays(c, loop, d, k, k - 1, i, k - 1, 0) && d.state == StateAfter(c, k - 1)
    ensures var final := Apply(c.m, Last(d, loop), c.blocks[k - 1], Real);
            Recovers(c, Trace(loop.disks + final.disks, loop.received + final.received, final.end), d, k, c.blocks[i..k])
  {
    hide Exec; hide NextState; hide ExecTxs; hide ValidateBlock; hide StateAfter; hide AppAfter; hide ResponsesAfter;
    hide GoodChain; hide AllRecoverable; hide Apply; hide Synced; hide HoldsBlocks;
    var d' := Last(d, loop);
    ApplyReal(c, d', k);
    hide Recoverable;
    var final := Apply(c.m, d', c.blocks[k - 1], Real);
    AllRecoverableConcat(c, loop.disks, final.disks);
    assert c.blocks[i..k - 1] + [c.blocks[k - 1]] == c.blocks[i..k];
  }

  lemma ReplayAllBehind(c: Chain, d: Disk, k: nat, i: nat)
    requires GoodChain(c) && 0 < k && i < k - 1
    requires Recoverable(c, d, k, k - 1, i) && d.app == AppAfter(c, i) && d.state == StateAfter(c, k - 1)
    ensures Recovers(c, ReplayBlocks(c.m, d, true), d, k, c.blocks[i..k])
  {
    hide Exec; hide NextState; hide ExecTxs; hide ValidateBlock; hide StateAfter; hide AppAfter; hide ResponsesAfter;
    hide GoodChain; hide AnyRecoverable; hide AllRecoverable; hide Apply; hide ReplayLoop; hide Recoverable; hide Recovers;
    DiskFacts(c, d, k, k - 1, i);
    LoopReplays(c, d, k, k - 1, i, k - 1, 0);
    ThenLastBlock(c, ReplayLoop(c.m, d, c.g.initialHeight + i, HeightOf(c, k - 1), 0), d, k, i);
  }

  /**
   After any crash the handshake brings store, state and application together
   at the store's block, with the state and the application of the
   uninterrupted run; the real application executes exactly the blocks it is
   missing.  Another crash meanwhile leaves a recoverable disk again.
   */
  lemma HandshakeRecovers(c: Chain, d: Disk, k: nat, j: nat, i: nat)
    requires GoodChain(c) && Recoverable(c, d, k, j, i) && CanRecover(c, k, j)
    ensures Recovers(c, Handshake(c.m, c.g, d), d, k, c.blocks[i..k])
  {
    hide Exec; hide NextState; hide ExecTxs;
    InitializedOk(c, d, k, j, i);
    assert d.appHeight == HeightOf(c, i) >= 0 && (i > 0 ==> d.app == AppAfter(c, i));
    hide Recoverable; hide GoodBlock; hide StateAfter; hide AppAfter; hide Initialized;
    var d0 := Initialized(c.m, c.g, d);
    var appHash := if d.appHeight == 0 then c.m.init(c.g).appHash else c.m.hash(d.app);
    ReplayRecovers(c, d0, k, j, i, appHash);
    hide Replay; hide AllRecoverable; hide Synced; hide CanRecover;
    AllRecoverableOne(c, d0, Replay(c.m, d0, d.appHeight, appHash).disks);
  }

  lemma ReplayRecovers(c: Chain, d: Disk, k: nat, j: nat, i: nat, appHash: Bytes)
    requires GoodChain(c) && Recoverable(c, d, k, j, i) && CanRecover(c, k, j)
    requires d.app == AppAfter(c, i) && d.state == StateAfter(c, j)
    requires appHash == if i == 0 then c.m.init(c.g).appHash else c.m.hash(d.app)
    ensures Recovers(c, Replay(c.m, d, d.appHeight, appHash), d, k, c.blocks[i..k])
  {
    hide Exec; hide NextState; hide ExecTxs; hide ValidateBlock; hide ReplayBlocks; hide ReplayLoop; hide Apply;
    DiskFacts(c, d, k, j, i);
    if j == k == i {
      NothingToReplay(c, d, k, appHash);
    } else if j == k {
      ReplayAllSynced(c, d, k, i);
      hide Recovers;
    } else if i < j {
      ReplayAllBehind(c, d, k, i);
      hide Recovers;
    } else if i == j {
      assert c.blocks[k - 1..k] == [c.blocks[k - 1]];
      ApplyReal(c, d, k);
      hide AllRecoverable; hide Synced; hide StateAfter; hide AppAfter; hide Recoverable;
    } else {
      assert c.blocks[k..k] == [];
      ApplyMock(c, d, k);
      hide AllRecoverable; hide Synced; hide StateAfter; hide AppAfter; hide Recoverable;
    }
  }

  lemma NothingToReplay(c: Chain, d: Disk, k: nat, appHash: Bytes)
    requires GoodChain(c) && Recoverable(c, d, k, k, k) && CanRecover(c, k, k)
    requires d.app == AppAfter(c, k) && d.state == StateAfter(c, k)
    requires appHash == if k == 0 then c.m.init(c.g).appHash else c.m.hash(d.app)
    ensures Recovers(c, Replay(c.m, d, d.appHeight, appHash), d, k, c.blocks[k..k])
  {
    hide Exec; hide NextState; hide ExecTxs; hide ValidateBlock; hide ReplayBlocks; hide ReplayLoop; hide Apply;
    StateFacts(c, k);
  }

  /** CanRecover is exact: without it no handshake completes. */
  lemma NoRecoveryOtherwise(c: Chain, d: Disk, k: nat, j: nat, i: nat)
    requires GoodChain(c) && Recoverable(c, d, k, j, i) && !CanRecover(c, k, j)
    ensures !Handshake(c.m, c.g, d).end.Done?
  {
    hide Exec; hide NextState; hide ExecTxs; hide ValidateBlock; hide ReplayBlocks; hide ReplayBlock;
    InitializedOk(c, d, k, j, i);
    DiskFacts(c, Initialized(c.m, c.g, d), k, j, i);
  }

  // --- whole histories -----------------------------------------------------------

  /** A node is running once a handshake completed; only then does it finalize blocks. */
  datatype Session = Session(disk: Disk, running: bool)

  ghost predicate Stops(s': Session, t: Trace) { s'.disk in t.disks && !s'.running }

  ghost predicate Completes(s: Session, s': Session, t: Trace) {
    t.end.Done? && s' == Session(Last(s.disk, t), true)
  }

  ghost predicate Handshakes(c: Chain, s: Session, s': Session) {
    var t := Handshake(c.m, c.g, s.disk);
    !s.running && (Stops(s', t) || Completes(s, s', t))
  }

  ghost predicate Finalizes(c: Chain, s: Session, s': Session, k: nat) {
    && s.running && k < |c.blocks| && s.disk.height == HeightOf(c, k)
    && var t := Finalize(c.m, s.disk, c.blocks[k]);
       Stops(s', t) || Completes(s, s', t)
  }

  /** While the node is down the application may come back at an earlier commit of its own. */
  ghost predicate AppFallsBack(c: Chain, s: Session, s': Session, i: nat) {
    && i <= |c.blocks| && HeightOf(c, i) <= s.disk.appHeight
    && !s'.running && s'.disk == WithApp(s.disk, HeightOf(c, i), AppAfter(c, i))
  }

  ghost predicate SessionStep(c: Chain, s: Session, s': Session) {
    || s' == s.(running := false)
    || Handshakes(c, s, s')
    || (exists k: nat :: Finalizes(c, s, s', k))
    || (exists i: nat :: AppFallsBack(c, s, s', i))
  }

  ghost predicate SessionOk(c: Chain, s: Session) {
    && AnyRecoverable(c, s.disk)
    && (s.running ==> exists k: nat :: Synced(c, s.disk, k))
  }

  ghost predicate IsHistory(c: Chain, run: seq<Session>) {
    && run != [] && !run[0].running && AnyRecoverable(c, run[0].disk)
    && forall x :: 0 <= x < |run| - 1 ==> SessionStep(c, run[x], run[x + 1])
  }

  function NewDisk(c: Chain, app: AppState): Disk { Disk(0, 0, map[], MakeGenesisState(c.g), map[], 0, app) }

  lemma NewNodeRecoverable(c: Chain, app: AppState)
    ensures AnyRecoverable(c, NewDisk(c, app))
  {
    hide Exec;
    assert Recoverable(c, NewDisk(c, app), 0, 0, 0);
  }

  lemma SyncedRecoverable(c: Chain, d: Disk, k: nat)
    requires Synced(c, d, k)
    ensures AnyRecoverable(c, d) && d.height == HeightOf(c, k)
  {
  }

  lemma FromTrace(c: Chain, s: Session, s': Session, t: Trace, k: nat)
    requires AllRecoverable(c, t.disks) && (t.end.Done? ==> Synced(c, Last(s.disk, t), k))
    requires Stops(s', t) || Completes(s, s', t)
    ensures SessionOk(c, s')
  {
    hide Recoverable;
    if s'.running { SyncedRecoverable(c, s'.disk, k); }
    hide Synced;
  }

  lemma HandshakeStepOk(c: Chain, s: Session, s': Session)
    requires GoodChain(c) && SessionOk(c, s) && Handshakes(c, s, s')
    ensures SessionOk(c, s')
  {
    var k: nat, j: nat, i: nat :| Recoverable(c, s.disk, k, j, i);
    assert k <= |c.blocks|;
    hide Recoverable;
    if CanRecover(c, k, j) {
      HandshakeRecovers(c, s.disk, k, j, i);
      hide Handshake; hide Synced; hide AllRecoverable;
      FromTrace(c, s, s', Handshake(c.m, c.g, s.disk), k);
    } else {
      NoRecoveryOtherwise(c, s.disk, k, j, i);
      InitializedOk(c, s.disk, k, j, i);
      NothingBeyondInit(c, s.disk, k, j, i);
    }
  }

  /** A handshake that cannot recover writes nothing but InitChain's answer. */
  lemma NothingBeyondInit(c: Chain, d: Disk, k: nat, j: nat, i: nat)
    requires GoodChain(c) && Recoverable(c, d, k, j, i) && !CanRecover(c, k, j)
    ensures Handshake(c.m, c.g, d).disks == [Initialized(c.m, c.g, d)]
  {
    hide Exec; hide NextState; hide ExecTxs; hide ValidateBlock; hide ReplayBlocks; hide ReplayBlock;
    InitializedOk(c, d, k, j, i);
    DiskFacts(c, Initialized(c.m, c.g, d), k, j, i);
  }

  lemma FinalizeStepOk(c: Chain, s: Session, s': Session, k: nat)
    requires GoodChain(c) && SessionOk(c, s) && Finalizes(c, s, s', k)
    ensures SessionOk(c, s')
  {
    hide Exec; hide NextState; hide ExecTxs; hide ValidateBlock; hide StateAfter; hide AppAfter; hide GoodBlock;
    hide Synced; hide AllRecoverable; hide AnyRecoverable; hide Finalize;
    var k': nat :| Synced(c, s.disk, k');
    SyncedRecoverable(c, s.disk, k');
    assert k' == k;
    FinalizeRecoverable(c, s.disk, k);
    FromTrace(c, s, s', Finalize(c.m, s.disk, c.blocks[k]), k + 1);
  }

  lemma FallBackOk(c: Chain, s: Session, s': Session, i: nat)
    requires GoodChain(c) && SessionOk(c, s) && AppFallsBack(c, s, s', i)
    ensures SessionOk(c, s')
  {
    hide Exec; hide NextState;
    var k: nat, j: nat, i0: nat :| Recoverable(c, s.disk, k, j, i0);
    assert i <= i0;
    KeepBlocks(c, s.disk, s'.disk, k);
    assert Recoverable(c, s'.disk, k, j, i);
  }

  lemma SessionStepOk(c: Chain, s: Session, s': Session)
    requires GoodChain(c) && SessionOk(c, s) && SessionStep(c, s, s')
    ensures SessionOk(c, s')
  {
    hide Handshakes; hide Finalizes; hide AppFallsBack; hide GoodChain; hide AnyRecoverable; hide Synced;
    if Handshakes(c, s, s') {
      HandshakeStepOk(c, s, s');
    } else if exists k: nat :: Finalizes(c, s, s', k) {
      var k: nat :| Finalizes(c, s, s', k);
      FinalizeStepOk(c, s, s', k);
    } else if exists i: nat :: AppFallsBack(c, s, s', i) {
      var i: nat :| AppFallsBack(c, s, s', i);
      FallBackOk(c, s, s', i);
    }
  }

  lemma {:induction false} HistoryOk(c: Chain, run: seq<Session>, x: nat)
    requires GoodChain(c) && IsHistory(c, run) && x < |run|
    ensures SessionOk(c, run[x])
  {
    hide SessionStep; hide GoodChain; hide AnyRecoverable; hide Synced;
    if x > 0 {
      HistoryOk(c, run, x - 1);
      assert SessionStep(c, run[x - 1], run[x - 1 + 1]);
      SessionStepOk(c, run[x - 1], run[x]);
    }
  }

  /**
   Crash recovery, over any history of finalized blocks, crashes at any point,
   interrupted handshakes and applications that fall back: wherever the node
   stands, a handshake left to run completes with store, state and application
   at the block store's height, holding what the uninterrupted run holds there.
   */
  lemma AlwaysRecovers(c: Chain, run: seq<Session>, x: nat)
    requires GoodChain(c) && IsHistory(c, run) && x < |run|
    requires c.g.initialHeight == 1 && (c.m.init(c.g).appHash != 0 || c.g.appHash == 0)
    ensures exists k: nat :: k <= |c.blocks| && run[x].disk.height == HeightOf(c, k) &&
                             RecoversTo(c, run[x].disk, k)
  {
    hide SessionStep; hide IsHistory; hide Exec; hide StateAfter; hide AppAfter;
    HistoryOk(c, run, x);
    var d := run[x].disk;
    var k: nat, j: nat, i: nat :| Recoverable(c, d, k, j, i);
    HandshakeRecovers(c, d, k, j, i);
    assert k <= |c.blocks| && d.height == HeightOf(c, k);
    hide Recoverable; hide Handshake;
    assert RecoversTo(c, d, k);
  }

  /** In particular from a new node: an empty store, the genesis state, and an application that has seen nothing. */
  lemma NewNodeAlwaysRecovers(c: Chain, app: AppState, run: seq<Session>, x: nat)
    requires GoodChain(c) && x < |run|
    requires run[0] == Session(NewDisk(c, app), false)
    requires forall y :: 0 <= y < |run| - 1 ==> SessionStep(c, run[y], run[y + 1])
    requires c.g.initialHeight == 1 && (c.m.init(c.g).appHash != 0 || c.g.appHash == 0)
    ensures exists k: nat :: k <= |c.blocks| && run[x].disk.height == HeightOf(c, k) &&
                             RecoversTo(c, run[x].disk, k)
  {
    hide SessionStep; hide AnyRecoverable; hide GoodChain; hide RecoversTo; hide NewDisk;
    NewNodeRecoverable(c, app);
    AlwaysRecovers(c, run, x);
  }

  ghost predicate RecoversTo(c: Chain, d: Disk, k: nat)
    requires k <= |c.blocks|
  {
    var t := Handshake(c.m, c.g, d);
    var d' := Last(d, t);
    && t.end == Done(StateAfter(c, k).appHash) && Synced(c, d', k)
    && d'.state == StateAfter(c, k) && d'.app == AppAfter(c, k)
    && d'.height == d'.appHeight == HeightOf(c, k)
  }

  // --- exact replay, for any heights ------------------------------------------------

  ghost predicate NumberedBlocks(d: Disk) { forall h :: h in d.blocks ==> d.blocks[h].header.height == h }

  function HeightsOf(blocks: seq<Block>): seq<int> { seq(|blocks|, x requires 0 <= x < |blocks| => blocks[x].header.height) }

  function UpTo(first: int, last: int): seq<int> {
    if last < first then [] else seq(last - first + 1, x requires 0 <= x <= last - first => first + x)
  }

  /** The heights the application has yet to see. */
  function Missing(d: Disk): seq<int> {
    if d.appHeight == d.height then [] else UpTo(FirstBlock(d.state, d.appHeight), d.height)
  }

  lemma HeightsOfConcat(a: seq<Block>, b: seq<Block>)
    ensures HeightsOf(a + b) == HeightsOf(a) + HeightsOf(b)
  {
  }

  lemma UpToSplits(first: int, mid: int, last: int)
    requires first - 1 <= mid <= last
    ensures UpTo(first, last) == UpTo(first, mid) + UpTo(mid + 1, last)
  {
  }

  lemma {:induction false} LoopInOrder(m: Machine, d: Disk, i: int, last: int, appHash: Bytes)
    requires NumberedBlocks(d)
    ensures var t := ReplayLoop(m, d, i, last, appHash);
            && t.end != Panicked(Uncovered)
            && Last(d, t).blocks == d.blocks
            && (t.end.Done? ==> HeightsOf(t.received) == UpTo(i, last))
    decreases last - i
  {
    hide Exec;
    LoopUnrolls(m, d, i, last, appHash);
    if i <= last && i in d.blocks && (appHash == 0 || appHash == d.blocks[i].header.appHash) {
      var a := Exec(m, d.app, d.blocks[i]).0;
      LoopInOrder(m, WithApp(d, i, a), i + 1, last, m.hash(a));
      HeightsOfConcat([d.blocks[i]], ReplayLoop(m, WithApp(d, i, a), i + 1, last, m.hash(a)).received);
      UpToSplits(i, i, last);
    }
  }

  /** Applying block h on top of what the loop did leaves nothing missing. */
  lemma LoopThenLast(m: Machine, d: Disk, first: int, h: int)
    requires NumberedBlocks(d) && first <= h
    ensures var loop := ReplayLoop(m, d, first, h - 1, 0);
            && loop.end != Panicked(Uncovered) && Last(d, loop).blocks == d.blocks
            && (loop.end.Done? && h in d.blocks ==> HeightsOf(loop.received + [d.blocks[h]]) == UpTo(first, h))
  {
    LoopInOrder(m, d, first, h - 1, 0);
    hide ReplayLoop;
    var loop := ReplayLoop(m, d, first, h - 1, 0);
    if h in d.blocks {
      HeightsOfConcat(loop.received, [d.blocks[h]]);
      assert HeightsOf([d.blocks[h]]) == [h] == UpTo(h, h);
    }
    UpToSplits(first, h - 1, h);
  }

  lemma ApplyReceives(m: Machine, d: Disk, h: int, conn: Conn)
    ensures var t := ReplayBlock(m, d, h, conn);
            && t.end != Panicked(Uncovered)
            && (t.end.Done? ==> h in d.blocks && t.received == if conn.Real? then [d.blocks[h]] else [])
  {
    hide Exec; hide NextState; hide ValidateBlock;
  }

  lemma ReplayManyIsExact(m: Machine, d: Disk, mutateState: bool)
    requires NumberedBlocks(d) && FirstBlock(d.state, d.appHeight) <= d.height
    ensures var t := ReplayBlocks(m, d, mutateState);
            && t.end != Panicked(Uncovered)
            && (t.end.Done? ==> HeightsOf(t.received) == UpTo(FirstBlock(d.state, d.appHeight), d.height))
  {
    var first, h := FirstBlock(d.state, d.appHeight), d.height;
    LoopInOrder(m, d, first, h, 0);
    LoopThenLast(m, d, first, h);
    ApplyReceives(m, Last(d, ReplayLoop(m, d, first, h - 1, 0)), h, Real);
    hide ReplayLoop; hide ReplayBlock; hide HeightsOf; hide UpTo;
  }

  /**
   Exact replay.  Whatever the three heights, the case analysis is complete; and
   if the handshake completes, the real application got exactly the blocks above
   its own height up to the store's, once each and in order, or none when it
   was already at the store's height.
   */
  lemma ReplayIsExact(m: Machine, g: Genesis, d: Disk)
    requires NumberedBlocks(d) && d.state.initialHeight > 0
    requires d.height == 0 || d.height >= d.state.initialHeight
    ensures var t := Handshake(m, g, d);
            && t.end != Panicked(Uncovered)
            && (t.end.Done? ==> HeightsOf(t.received) == Missing(d))
  {
    var d0, h := Initialized(m, g, d), d.height;
    assert NumberedBlocks(d0) && d0.height == h && d0.appHeight == d.appHeight;
    hide ReplayBlocks; hide ReplayBlock;
    var first := FirstBlock(d0.state, d0.appHeight);
    if first <= h {
      ReplayManyIsExact(m, d0, false);
      ReplayManyIsExact(m, d0, true);
    }
    ApplyReceives(m, d0, h, Real);
    if h in d0.responses { ApplyReceives(m, d0, h, Mock(m.hash(d.app), d0.responses[h])); }
    if h in d0.responses { ApplyReceives(m, d0, h, Mock(m.init(g).appHash, d0.responses[h])); }
    assert h in d0.blocks ==> HeightsOf([d0.blocks[h]]) == UpTo(h, h);
    hide HeightsOf; hide UpTo; hide NumberedBlocks;
  }
}
