/**
 Rollback overwrites the stored state of height n with that of height n - 1,
 rebuilt from the two latest block metas and the compressed state store.
 */
module Rollback {
  import opened Basics
  import opened Validators
  import opened States
  import opened StateStore

  datatype Meta = Meta(id: BlockRef, header: Header)

  /** The part of the block store rollback reads. */
  datatype Blocks = Blocks(height: int, metas: map<int, Meta>)

  datatype Failure = NoState | WrongHeights | NoBlock(height: int) | NoValidators | NoParams | SaveFailed

  type Outcome = Result<(int, Bytes), Failure>

  function Clamp(changed: int, to: int): int { if changed > to then to + 1 else changed }

  /** The state of height n - 1 as far as the blocks and the store tell. */
  function Rebuilt(s: State, previous: Meta, latest: Meta, lastVals: ValidatorSet, params: ConsensusParams): State {
    State(s.chainID, s.initialHeight, previous.header.height, previous.id, previous.header.time,
          s.vals, s.lastVals, lastVals, Clamp(s.lastHeightValsChanged, s.lastBlockHeight - 1),
          params, Clamp(s.lastHeightParamsChanged, s.lastBlockHeight - 1),
          latest.header.lastResultsHash, latest.header.appHash)
  }

  function RolledBack(blocks: Blocks, st: Store): (Outcome, Option<State>) {
    if st.state.None? then (Err(NoState), None)
    else
      var s := st.state.value;
      var to := s.lastBlockHeight - 1;
      if blocks.height == s.lastBlockHeight + 1 then (Ok((s.lastBlockHeight, s.appHash)), None)
      else if blocks.height != s.lastBlockHeight then (Err(WrongHeights), None)
      else if to !in blocks.metas then (Err(NoBlock(to)), None)
      else if s.lastBlockHeight !in blocks.metas then (Err(NoBlock(s.lastBlockHeight)), None)
      else if LoadValidators(st.vals, to).Err? then (Err(NoValidators), None)
      else if LoadParams(st.params, to + 1).Err? then (Err(NoParams), None)
      else
        var r := Rebuilt(s, blocks.metas[to], blocks.metas[s.lastBlockHeight],
                         LoadValidators(st.vals, to).value.vals, LoadParams(st.params, to + 1).value);
        if Save(st, r).None? then (Err(SaveFailed), None) else (Ok((r.lastBlockHeight, r.appHash)), Some(r))
  }

  method Roll(blocks: Blocks, db: DbStore) returns (r: Outcome)
    modifies db
    ensures r == RolledBack(blocks, old(db.View())).0
    ensures var s := RolledBack(blocks, old(db.View())).1;
            s.Some? ==> db.View() == Save(old(db.View()), s.value).value
    ensures RolledBack(blocks, old(db.View())).1.None? ==> db.state == old(db.state) && db.params == old(db.params)
  {
    hide LoadValidators; hide LoadParams; hide Save;
    if db.state.None? { return Err(NoState); }
    var s := db.state.value;
    if blocks.height == s.lastBlockHeight + 1 { return Ok((s.lastBlockHeight, s.appHash)); }
    if blocks.height != s.lastBlockHeight { return Err(WrongHeights); }
    var to := s.lastBlockHeight - 1;
    if to !in blocks.metas { return Err(NoBlock(to)); }
    if s.lastBlockHeight !in blocks.metas { return Err(NoBlock(s.lastBlockHeight)); }
    var lastVals := LoadValidators(db.vals, to);
    if lastVals.Err? { return Err(NoValidators); }
    var params := LoadParams(db.params, to + 1);
    if params.Err? { return Err(NoParams); }
    var rebuilt := Rebuilt(s, blocks.metas[to], blocks.metas[s.lastBlockHeight], lastVals.value.vals, params.value);
    var ok := db.SaveState(rebuilt);
    if !ok { return Err(SaveFailed); }
    return Ok((rebuilt.lastBlockHeight, rebuilt.appHash));
  }

  /** The fields a rollback restores: all but the two change heights. */
  ghost predicate SameButChangeHeights(a: State, b: State) {
    a == b.(lastHeightValsChanged := a.lastHeightValsChanged, lastHeightParamsChanged := a.lastHeightParamsChanged)
  }

  /** The block store after block `b` was saved on top of the block that led to `s`. */
  ghost predicate HoldsLastTwo(blocks: Blocks, s: State, b: Block) {
    && blocks.height == b.header.height
    && s.lastBlockHeight in blocks.metas && b.header.height in blocks.metas
    && blocks.metas[b.header.height] == Meta(b.id, b.header)
    && blocks.metas[s.lastBlockHeight].id == s.lastBlockID
    && blocks.metas[s.lastBlockHeight].header.height == s.lastBlockHeight
    && blocks.metas[s.lastBlockHeight].header.time == s.lastBlockTime
  }

  lemma RebuiltIsPrevious(s: State, b: Block, r: Responses, appHash: Bytes, previous: Meta)
    requires ValidateBlock(s, b) && s.lastBlockHeight > 0
    requires previous.id == s.lastBlockID && previous.header.height == s.lastBlockHeight && previous.header.time == s.lastBlockTime
    ensures var s' := UpdateState(s, b.id, b.header, r).(appHash := appHash);
            SameButChangeHeights(Rebuilt(s', previous, Meta(b.id, b.header), s.lastVals, s.params), s)
  {
  }

  /**
   Rollback undoes the application of a validated block, in any world the store
   can reach whose state has a block and whose store still covers it.
   */
  lemma RollbackInvertsApplyBlock(w: World, b: Block, r: Responses, appHash: Bytes, blocks: Blocks)
    requires WorldOk(w) && ValidateBlock(w.state, b) && r.newVals != Some([])
    requires w.state.lastBlockHeight > 0 && w.lo <= w.state.lastBlockHeight && HoldsLastTwo(blocks, w.state, b)
    ensures var w' := Step(w, ApplyBlock(b.id, b.header, r, appHash));
            var (out, restored) := RolledBack(blocks, w'.store);
            && restored.Some? && SameButChangeHeights(restored.value, w.state)
            && out == Ok((w.state.lastBlockHeight, w.state.appHash))
  {
    var op := ApplyBlock(b.id, b.header, r, appHash);
    var n := b.header.height;
    var w' := Step(w, op);
    ApplyBlockOk(w, op);
    assert NextHeight(w'.state) == n + 1 && w'.store.state == Some(w'.state) && w'.lo == w.lo && w'.paramsLo == w.paramsLo;
    assert w.truth.vals[n - 1] == w'.truth.vals[n - 1] && w.truth.params[n] == w'.truth.params[n];
    LoadIsTruth(w'.store.vals, w'.truth, w.lo, n + 2, n - 1);
    LoadParamsIsTruth(w'.store.params, w'.truth, w.paramsLo, n + 1, n);
    RebuiltIsPrevious(w.state, b, r, appHash, blocks.metas[n - 1]);
    SaveSucceeds(w'.store, Rebuilt(w'.state, blocks.metas[n - 1], blocks.metas[n], w.state.lastVals, w.state.params));
    hide LoadValidators; hide LoadParams; hide Save; hide WorldOk; hide Rebuilt; hide SameButChangeHeights;
  }

  lemma SaveSucceeds(st: Store, s: State)
    requires s.lastHeightValsChanged <= NextHeight(s) + 1
    ensures Save(st, s).Some?
  {
  }

  /**
   The first block cannot be rolled back: there is no earlier block meta, and
   the stored state stays.
   */
  lemma FirstBlockStays(w: World, blocks: Blocks)
    requires WorldOk(w) && w.store.state == Some(w.state) && w.state.lastBlockHeight == w.state.initialHeight == blocks.height
    requires forall h :: h in blocks.metas ==> w.state.initialHeight <= h
    ensures RolledBack(blocks, w.store) == (Err(NoBlock(w.state.initialHeight - 1)), None)
  {
  }

  // --- what loads after a rollback ------------------------------------------------

  /**
   The entry at n as those above that point at it find it: with its full set or
   without, `full` says which.
   */
  ghost predicate SeamEntryOk(db: ValDb, t: Truth, n: int, full: bool)
    requires n in t.vals
  {
    && n in db && t.vals[n] != [] && (db[n].vals.Some? <==> full)
    && (full ==> db[n].vals.value == t.vals[n])
  }

  /**
   A height saved since block n was rolled back.  Its entry leads to a full copy
   above n, or to one below, or, if the recorded change is n, to the entry at n,
   which need not be one.
   */
  ghost predicate TailEntryOk(db: ValDb, t: Truth, n: int, full: bool, h: int) {
    && h in t.vals && h in t.valsChanged && n in t.vals && n + 1 in t.vals && n + 1 in t.valsChanged
    && var at := t.valsChanged[h];
       var g := LastStoredHeightFor(h, at);
       && 0 < at <= h && t.vals[h] != []
       && h in db && db[h].lastChanged == at
       && (db[h].vals.Some? <==> h == at || h % CHECKPOINT_INTERVAL == 0)
       && (if g > n then FullAt(db, g, t.vals[h])
           else && at == t.valsChanged[n + 1] && t.vals[h] == t.vals[n + 1]
                && if at < n then FullAt(db, g, t.vals[h]) else g == n && SeamEntryOk(db, t, n, full))
  }

  /** The heights from `from` on, all saved since block n was rolled back. */
  ghost predicate TailOk(db: ValDb, t: Truth, n: int, full: bool, from: int, hi: int) {
    && n < from <= hi
    && (forall h :: from <= h <= hi ==> h in t.vals && h in t.valsChanged && TailEntryOk(db, t, n, full, h))
    && (forall h :: from < h <= hi ==>
          t.valsChanged[h] == h || (t.valsChanged[h] == t.valsChanged[h - 1] && t.vals[h] == t.vals[h - 1]))
  }

  /** The change height the rollback recorded is n itself, or an older one that is true. */
  ghost predicate SeamOk(t: Truth, n: int) {
    && n in t.vals && n in t.valsChanged && n + 1 in t.vals && n + 1 in t.valsChanged && t.valsChanged[n + 1] <= n
    && (t.valsChanged[n + 1] < n ==> t.valsChanged[n] == t.valsChanged[n + 1] && t.vals[n] == t.vals[n + 1])
  }

  predicate LoadsRight(db: ValDb, h: int, vals: ValidatorSet) {
    LoadValidators(db, h).Ok? && LoadValidators(db, h).value.vals == vals
  }

  lemma {:induction false} TailSteady(db: ValDb, t: Truth, n: int, full: bool, from: int, hi: int, g: int, h: int)
    requires TailOk(db, t, n, full, from, hi) && from <= g <= h <= hi && t.valsChanged[h] <= g
    ensures t.valsChanged[g] == t.valsChanged[h] && t.vals[g] == t.vals[h]
    decreases h - g
  {
    hide TailEntryOk;
    assert TailEntryOk(db, t, n, full, h) && TailEntryOk(db, t, n, full, g);
    if g < h { TailSteady(db, t, n, full, from, hi, g, h - 1); }
  }

  /**
   The exact condition for one height above n: its change or a checkpoint lies
   above n, or the recorded change is older than n, or the entry at n is full
   and nothing changed from n to n + 1.
   */
  lemma LoadExactly(db: ValDb, t: Truth, n: int, full: bool, h: int)
    requires TailEntryOk(db, t, n, full, h) && SeamOk(t, n) && n < h
    ensures LoadsRight(db, h, t.vals[h]) <==>
              || db[h].lastChanged > n || h - h % CHECKPOINT_INTERVAL > n
              || t.valsChanged[n + 1] < n || (full && t.vals[n] == t.vals[n + 1])
  {
  }

  /** The store since block n was rolled back: as before up to n, the tail above, parameters as they should be. */
  ghost predicate RolledOk(w: World, n: int, full: bool) {
    var next := NextHeight(w.state);
    && 0 < w.lo <= next && 0 < n <= next && 0 < w.paramsLo <= next && w.state.lastBlockHeight > 0
    && ValsOk(w.store.vals, w.truth, w.lo, n)
    && TailOk(w.store.vals, w.truth, n, full, Max(w.lo, n + 1), next + 1) && SeamOk(w.truth, n)
    && ParamsOk(w.store.params, w.truth, w.paramsLo, next) && PointBack(w.store)
    && next + 1 in w.truth.vals && w.truth.vals[next + 1] == w.state.nextVals
    && next + 1 in w.truth.valsChanged && w.truth.valsChanged[next + 1] == w.state.lastHeightValsChanged
    && next in w.truth.params && w.truth.params[next] == w.state.params
    && next in w.truth.paramsChanged && w.truth.paramsChanged[next] == w.state.lastHeightParamsChanged
  }

  /** What a step above n leaves alone. */
  ghost predicate SameSeam(t: Truth, t': Truth, n: int) {
    && n in t.vals && n + 1 in t.vals && n + 1 in t.valsChanged && n in t'.vals && n + 1 in t'.vals && n + 1 in t'.valsChanged
    && t'.vals[n] == t.vals[n] && t'.vals[n + 1] == t.vals[n + 1] && t'.valsChanged[n + 1] == t.valsChanged[n + 1]
  }

  // --- ... and a block is applied

  /** Writing above n leaves what is covered up to n as it was. */
  lemma KeepHead(db: ValDb, t: Truth, lo: int, n: int, k: int, at: int, vals: ValidatorSet, t': Truth)
    requires ValsOk(db, t, lo, n) && n < k && SaveVals(db, k, at, vals).Some?
    requires t'.vals == t.vals[k := vals] && t'.valsChanged == t.valsChanged[k := at]
    ensures ValsOk(SaveVals(db, k, at, vals).value, t', lo, n)
  {
    var db' := SaveVals(db, k, at, vals).value;
    forall h | lo <= h <= n ensures ValEntryOk(db', t', h) { assert ValEntryOk(db, t, h); }
  }

  lemma KeepTail(db: ValDb, t: Truth, n: int, full: bool, k: int, at: int, vals: ValidatorSet, t': Truth, h: int)
    requires TailEntryOk(db, t, n, full, h) && SaveVals(db, k, at, vals).Some? && h < k && n + 1 < k && h > n
    requires t'.vals == t.vals[k := vals] && t'.valsChanged == t.valsChanged[k := at]
    ensures TailEntryOk(SaveVals(db, k, at, vals).value, t', n, full, h)
  {
  }

  lemma NewTailEntry(db: ValDb, t: Truth, n: int, full: bool, hi: int, at: int, vals: ValidatorSet, t': Truth)
    requires TailEntryOk(db, t, n, full, hi) && vals != [] && 0 <= n < hi
    requires at == hi + 1 || (at == t.valsChanged[hi] && vals == t.vals[hi])
    requires t'.vals == t.vals[hi + 1 := vals] && t'.valsChanged == t.valsChanged[hi + 1 := at]
    ensures SaveVals(db, hi + 1, at, vals).Some? && TailEntryOk(SaveVals(db, hi + 1, at, vals).value, t', n, full, hi + 1)
  {
    if at != hi + 1 && (hi + 1) % CHECKPOINT_INTERVAL != 0 { SameCheckpoint(hi, hi + 1); }
  }

  lemma ExtendTail(db: ValDb, t: Truth, n: int, full: bool, from: int, hi: int, at: int, vals: ValidatorSet, t': Truth)
    requires TailOk(db, t, n, full, from, hi) && vals != [] && 0 <= n
    requires at == hi + 1 || (at == t.valsChanged[hi] && vals == t.vals[hi])
    requires t'.vals == t.vals[hi + 1 := vals] && t'.valsChanged == t.valsChanged[hi + 1 := at]
    ensures SaveVals(db, hi + 1, at, vals).Some?
    ensures TailOk(SaveVals(db, hi + 1, at, vals).value, t', n, full, from, hi + 1)
  {
    assert TailEntryOk(db, t, n, full, hi);
    NewTailEntry(db, t, n, full, hi, at, vals, t');
    hide TailEntryOk; hide SaveVals;
    var db' := SaveVals(db, hi + 1, at, vals).value;
    forall h | from <= h <= hi + 1 ensures TailEntryOk(db', t', n, full, h) {
      if h <= hi { KeepTail(db, t, n, full, hi + 1, at, vals, t', h); }
    }
  }

  lemma RolledSave(w: World, n: int, full: bool, op: Op)
    requires RolledOk(w, n, full) && op.ApplyBlock? && Possible(w, op)
    ensures var s, next := NextState(w.state, op), NextHeight(w.state);
            && NextHeight(s) == next + 1 && SaveVals(w.store.vals, next + 2, s.lastHeightValsChanged, s.nextVals).Some?
            && var db' := SaveVals(w.store.vals, next + 2, s.lastHeightValsChanged, s.nextVals).value;
               && ValsOk(db', Record(w.truth, s), w.lo, n)
               && TailOk(db', Record(w.truth, s), n, full, Max(w.lo, n + 1), next + 2)
  {
    hide ParamsOk; hide ValsOk; hide SeamOk; hide SaveVals;
    var s := NextState(w.state, op);
    var next := NextHeight(w.state);
    assert TailEntryOk(w.store.vals, w.truth, n, full, next + 1);
    assert s.nextVals != [] && NextHeight(s) == next + 1;
    hide TailOk; hide TailEntryOk;
    ExtendTail(w.store.vals, w.truth, n, full, Max(w.lo, n + 1), next + 1, s.lastHeightValsChanged, s.nextVals, Record(w.truth, s));
    KeepHead(w.store.vals, w.truth, w.lo, n, next + 2, s.lastHeightValsChanged, s.nextVals, Record(w.truth, s));
  }

  lemma ParamsPointBack(db: ParamsDb, t: Truth, lo: int, h: int)
    requires ParamsOk(db, t, lo, h) && lo <= h
    ensures t.paramsChanged[h] <= h
  {
    assert ParamsEntryOk(db, t, h);
  }

  lemma RolledBlock(w: World, n: int, full: bool, op: Op)
    requires RolledOk(w, n, full) && op.ApplyBlock? && Possible(w, op)
    ensures var w' := Step(w, op);
            && RolledOk(w', n, full) && w'.lo == w.lo && w'.paramsLo == w.paramsLo && SameSeam(w.truth, w'.truth, n)
  {
    hide ValsOk; hide TailOk; hide PointBack; hide ParamsEntryOk; hide SaveVals;
    var s := NextState(w.state, op);
    var next := NextHeight(w.state);
    RolledSave(w, n, full, op);
    ParamsPointBack(w.store.params, w.truth, w.paramsLo, next);
    hide ParamsOk; hide SaveParams;
    SaveParamsExtends(w.store.params, w.truth, w.paramsLo, next, s.lastHeightParamsChanged, s.params, Record(w.truth, s));
    SavePointsBack(w.store, s);
  }

  // --- ... or states are pruned

  /** What a height above the cut points at below the cut is what pruning keeps. */
  lemma TailKept(db: ValDb, t: Truth, lo: int, n: int, full: bool, hi: int, to: int, h: int)
    requires ValsOk(db, t, lo, n) && TailOk(db, t, n, full, Max(lo, n + 1), hi) && SeamOk(t, n)
    requires lo <= to <= h <= hi && n < h && LastStoredHeightFor(h, t.valsChanged[h]) < to
    ensures LastStoredHeightFor(h, t.valsChanged[h]) in KeepVals(db, to)
  {
    var g := LastStoredHeightFor(h, t.valsChanged[h]);
    assert TailEntryOk(db, t, n, full, h);
    SameCheckpoint(to, h);
    if to > n {
      TailSteady(db, t, n, full, Max(lo, n + 1), hi, to, h);
      assert TailEntryOk(db, t, n, full, to);
    } else {
      SameChange(t.valsChanged, lo, n, to, n);
      assert ValEntryOk(db, t, to);
    }
  }

  lemma LeftAt(db: ValDb, from: int, to: int, g: int)
    requires g in db && g < to && (from <= g ==> g in KeepVals(db, to))
    ensures db[g].vals.Some? || !(from <= g) ==> g in PrunedVals(db, from, to) && PrunedVals(db, from, to)[g] == db[g]
    ensures from <= g && LoadValidators(db, g).Ok? ==> FullAt(PrunedVals(db, from, to), g, LoadValidators(db, g).value.vals)
  {
  }

  lemma KeptAbove(db: ValDb, from: int, to: int, h: int)
    requires h in db && to <= h
    ensures h in PrunedVals(db, from, to) && PrunedVals(db, from, to)[h] == db[h]
  {
  }

  lemma PruneTailEntry(db: ValDb, t: Truth, lo: int, n: int, full: bool, hi: int, from: int, to: int, h: int)
    requires ValsOk(db, t, lo, n) && TailOk(db, t, n, full, Max(lo, n + 1), hi) && SeamOk(t, n)
    requires lo <= from < to <= h <= hi && n < h
    ensures TailEntryOk(PrunedVals(db, from, to), t, n, full || from <= n < to, h)
  {
    assert TailEntryOk(db, t, n, full, h);
    var g := LastStoredHeightFor(h, t.valsChanged[h]);
    KeptAbove(db, from, to, h);
    if g >= to {
      KeptAbove(db, from, to, g);
    } else {
      TailKept(db, t, lo, n, full, hi, to, h);
      LeftAt(db, from, to, g);
      if from <= n < to { LoadIsTruth(db, t, lo, n, n); }
    }
    hide PrunedVals; hide LoadValidators; hide ValsOk; hide TailOk;
  }

  lemma PruneTail(db: ValDb, t: Truth, lo: int, n: int, full: bool, hi: int, from: int, to: int)
    requires ValsOk(db, t, lo, n) && TailOk(db, t, n, full, Max(lo, n + 1), hi) && SeamOk(t, n)
    requires lo <= from < to <= hi
    ensures TailOk(PrunedVals(db, from, to), t, n, full || from <= n < to, Max(to, n + 1), hi)
    ensures ValsOk(PrunedVals(db, from, to), t, to, n)
  {
    hide PrunedVals;
    var db', full' := PrunedVals(db, from, to), full || from <= n < to;
    forall h | Max(to, n + 1) <= h <= hi ensures TailEntryOk(db', t, n, full', h) {
      PruneTailEntry(db, t, lo, n, full, hi, from, to, h);
    }
    forall h | to <= h <= n ensures ValEntryOk(db', t, h) { PruneValsInvisible(db, t, lo, n, from, to, h); }
    hide TailEntryOk; hide ValEntryOk;
  }

  lemma TailCanPrune(db: ValDb, t: Truth, lo: int, n: int, full: bool, hi: int, to: int, x: int)
    requires ValsOk(db, t, lo, n) && TailOk(db, t, n, full, Max(lo, n + 1), hi) && lo <= x < to <= hi
    requires x in KeepVals(db, to)
    ensures LoadValidators(db, x).Ok?
  {
    if x <= n {
      LoadIsTruth(db, t, lo, n, x);
    } else {
      assert TailEntryOk(db, t, n, full, to) && TailEntryOk(db, t, n, full, x);
      if x == t.valsChanged[to] { TailSteady(db, t, n, full, Max(lo, n + 1), hi, x, to); }
    }
  }

  lemma PrunedPointsBack(st: Store, from: int, to: int)
    requires PointBack(st)
    ensures PointBack(st.(vals := PrunedVals(st.vals, from, to), params := PrunedParams(st.params, from, to)))
  {
    hide LoadValidators; hide LoadParams; hide KeepVals; hide KeepParams;
  }

  lemma RolledPruneVals(w: World, n: int, full: bool, op: Op)
    requires RolledOk(w, n, full) && op.Prune? && Possible(w, op)
    ensures forall x :: x in KeepVals(w.store.vals, op.to) && op.from <= x < op.to ==> LoadValidators(w.store.vals, x).Ok?
    ensures op.to in w.store.vals
    ensures var w' := Step(w, op); var next := NextHeight(w.state);
            && ValsOk(w'.store.vals, w.truth, op.to, n)
            && TailOk(w'.store.vals, w.truth, n, full || op.from <= n < op.to, Max(op.to, n + 1), next + 1)
  {
    var from, to, hi := op.from, op.to, NextHeight(w.state) + 1;
    if to <= n { assert ValEntryOk(w.store.vals, w.truth, to); } else { assert TailEntryOk(w.store.vals, w.truth, n, full, to); }
    hide ValsOk; hide TailOk; hide ParamsOk; hide LoadValidators; hide SeamOk; hide KeepVals; hide PrunedVals; hide TailEntryOk;
    hide PrunedParams; hide ValEntryOk;
    PruneTail(w.store.vals, w.truth, w.lo, n, full, hi, from, to);
    forall x | x in KeepVals(w.store.vals, to) && from <= x < to ensures LoadValidators(w.store.vals, x).Ok? {
      TailCanPrune(w.store.vals, w.truth, w.lo, n, full, hi, to, x);
    }
  }

  lemma RolledPrune(w: World, n: int, full: bool, op: Op)
    requires RolledOk(w, n, full) && op.Prune? && Possible(w, op)
    ensures CanPrune(w.store, op.from, op.to)
    ensures RolledOk(Step(w, op), n, full || op.from <= n < op.to) && SameSeam(w.truth, Step(w, op).truth, n)
  {
    var from, to, hi := op.from, op.to, NextHeight(w.state);
    var w' := Step(w, op);
    RolledPruneVals(w, n, full, op);
    assert ParamsEntryOk(w.store.params, w.truth, to);
    forall h | to <= h <= hi ensures ParamsEntryOk(w'.store.params, w.truth, h) {
      PruneParamsInvisible(w.store.params, w.truth, w.paramsLo, hi, from, to, h);
    }
    forall h | h in KeepParams(w.store.params, to) && from <= h < to ensures LoadParams(w.store.params, h).Ok? {
      LoadParamsIsTruth(w.store.params, w.truth, w.paramsLo, hi, h);
    }
    PrunedPointsBack(w.store, from, to);
    hide LoadParams; hide LoadValidators; hide ParamsEntryOk; hide ValsOk; hide TailOk; hide PointBack; hide KeepVals; hide KeepParams;
    hide PrunedVals; hide PrunedParams;
  }

  // --- whole histories since a rollback

  /** Rolling back what a block did to the world: the restored state is saved over it. */
  ghost function AfterRollback(w: World, b: Block, r: Responses, appHash: Bytes, blocks: Blocks): World {
    var w' := Step(w, ApplyBlock(b.id, b.header, r, appHash));
    var restored := RolledBack(blocks, w'.store).1;
    if restored.None? || Save(w'.store, restored.value).None? then w'
    else World(Save(w'.store, restored.value).value, Record(w'.truth, restored.value), w'.lo, w'.paramsLo, restored.value)
  }

  ghost predicate CanRollBack(w: World, b: Block, r: Responses, blocks: Blocks) {
    && WorldOk(w) && ValidateBlock(w.state, b) && r.newVals != Some([])
    && w.state.lastBlockHeight > 0 && w.lo <= w.state.lastBlockHeight && HoldsLastTwo(blocks, w.state, b)
  }

  predicate FullEntry(st: Store, n: int) { n in st.vals && st.vals[n].vals.Some? }

  /**
   What the stored state and the entry at n tell before the rollback: whether
   the clamped change height will do, given that the entry is or will be full.
   */
  predicate SeamHolds(s: State, n: int, full: bool) { s.lastHeightValsChanged < n || (full && s.lastVals == s.vals) }

  lemma FewerCovered(db: ValDb, t: Truth, lo: int, n: int, hi: int)
    requires ValsOk(db, t, lo, hi) && n <= hi
    ensures ValsOk(db, t, lo, n)
  {
    hide ValEntryOk;
  }

  lemma NewSeam(db: ValDb, t: Truth, lo: int, n: int, at: int, t': Truth)
    requires ValsOk(db, t, lo, n + 2) && 0 < lo <= n && at == Clamp(t.valsChanged[n + 2], n - 1)
    requires t'.vals == t.vals[n + 1 := t.vals[n + 1]] && t'.valsChanged == t.valsChanged[n + 1 := at]
    ensures SaveVals(db, n + 1, at, t.vals[n + 1]).Some? && SeamOk(t', n) && n in db
    ensures TailEntryOk(SaveVals(db, n + 1, at, t.vals[n + 1]).value, t', n, db[n].vals.Some?, n + 1)
  {
    assert ValEntryOk(db, t, n) && ValEntryOk(db, t, n + 1) && ValEntryOk(db, t, n + 2);
    if t.valsChanged[n + 2] < n {
      SameChange(t.valsChanged, lo, n + 2, n, n + 2);
      SameChange(t.valsChanged, lo, n + 2, n, n + 1);
    }
    if (n + 1) % CHECKPOINT_INTERVAL != 0 { SameCheckpoint(n, n + 1); }
  }

  lemma SeamAfterRollback(db: ValDb, t: Truth, lo: int, n: int, at: int, t': Truth)
    requires ValsOk(db, t, lo, n + 2) && 0 < lo <= n && at == Clamp(t.valsChanged[n + 2], n - 1)
    requires t'.vals == t.vals[n + 1 := t.vals[n + 1]] && t'.valsChanged == t.valsChanged[n + 1 := at]
    ensures SaveVals(db, n + 1, at, t.vals[n + 1]).Some? && n in db
    ensures var db' := SaveVals(db, n + 1, at, t.vals[n + 1]).value;
            ValsOk(db', t', lo, n) && TailOk(db', t', n, db[n].vals.Some?, n + 1, n + 1) && SeamOk(t', n)
  {
    assert n + 1 in t.vals;
    hide ValsOk; hide SaveVals; hide TailEntryOk; hide SeamOk; hide Clamp;
    FewerCovered(db, t, lo, n, n + 2);
    NewSeam(db, t, lo, n, at, t');
    KeepHead(db, t, lo, n, n + 1, at, t.vals[n + 1], t');
  }

  lemma ParamsAfterRollback(db: ParamsDb, t: Truth, lo: int, n: int, at: int, t': Truth)
    requires ParamsOk(db, t, lo, n + 1) && 0 < lo <= n && at == Clamp(t.paramsChanged[n + 1], n - 1)
    requires t'.params == t.params[n := t.params[n]] && t'.paramsChanged == t.paramsChanged[n := at]
    ensures ParamsOk(SaveParams(db, n, at, t.params[n]), t', lo, n)
  {
    assert ParamsEntryOk(db, t, n) && ParamsEntryOk(db, t, n + 1);
    var db' := SaveParams(db, n, at, t.params[n]);
    forall h | lo <= h <= n ensures ParamsEntryOk(db', t', h) { assert ParamsEntryOk(db, t, h); }
  }

  lemma RollbackSaves(w: World, b: Block, r: Responses, appHash: Bytes, blocks: Blocks)
    requires CanRollBack(w, b, r, blocks)
    ensures var w' := Step(w, ApplyBlock(b.id, b.header, r, appHash));
            var restored := RolledBack(blocks, w'.store).1;
            && restored.Some? && Save(w'.store, restored.value).Some? && WorldOk(w')
            && restored.value.nextVals == w'.state.vals && restored.value.params == w'.truth.params[b.header.height]
            && restored.value.lastBlockHeight == b.header.height - 1 > 0
            && restored.value.lastHeightValsChanged == Clamp(w'.state.lastHeightValsChanged, b.header.height - 1)
            && restored.value.lastHeightParamsChanged == Clamp(w'.state.lastHeightParamsChanged, b.header.height - 1)
  {
    var op := ApplyBlock(b.id, b.header, r, appHash);
    RollbackInvertsApplyBlock(w, b, r, appHash, blocks);
    ApplyBlockOk(w, op);
    assert w.truth.params[b.header.height] == w.state.params;
    assert Step(w, op).store.state == Some(Step(w, op).state);
    hide WorldOk; hide LoadValidators; hide LoadParams; hide Save;
  }

  /** The restored state saved over the store of the block that is rolled back. */
  lemma SavedOver(w: World, restored: State, n: int)
    requires WorldOk(w) && NextHeight(w.state) == n + 1 && NextHeight(restored) == n && restored.lastBlockHeight > 0
    requires w.lo <= n && w.paramsLo <= n && Save(w.store, restored).Some?
    requires restored.nextVals == w.state.vals && restored.params == w.truth.params[n]
    requires restored.lastHeightValsChanged == Clamp(w.state.lastHeightValsChanged, n - 1)
    requires restored.lastHeightParamsChanged == Clamp(w.state.lastHeightParamsChanged, n - 1)
    ensures RolledOk(World(Save(w.store, restored).value, Record(w.truth, restored), w.lo, w.paramsLo, restored), n, FullEntry(w.store, n))
  {
    hide ValsOk; hide ParamsOk; hide TailOk; hide SeamOk; hide SaveVals; hide SaveParams; hide PointBack;
    Indexed(w, n);
    var t' := Record(w.truth, restored);
    SeamAfterRollback(w.store.vals, w.truth, w.lo, n, restored.lastHeightValsChanged, t');
    ParamsAfterRollback(w.store.params, w.truth, w.paramsLo, n, restored.lastHeightParamsChanged, t');
    SavePointsBack(w.store, restored);
  }

  lemma Indexed(w: World, n: int)
    requires WorldOk(w) && NextHeight(w.state) == n + 1 && w.lo <= n && w.paramsLo <= n
    ensures n + 1 in w.truth.vals && w.truth.vals[n + 1] == w.state.vals
    ensures n + 2 in w.truth.valsChanged && w.truth.valsChanged[n + 2] == w.state.lastHeightValsChanged
    ensures n in w.truth.params && n + 1 in w.truth.paramsChanged && w.truth.paramsChanged[n + 1] == w.state.lastHeightParamsChanged
  {
  }

  lemma SavePointsBack(st: Store, s: State)
    requires PointBack(st) && Save(st, s).Some? && s.lastHeightParamsChanged <= NextHeight(s)
    ensures PointBack(Save(st, s).value)
  {
  }

  lemma RollbackRolls(w: World, b: Block, r: Responses, appHash: Bytes, blocks: Blocks)
    requires CanRollBack(w, b, r, blocks)
    ensures var w' := Step(w, ApplyBlock(b.id, b.header, r, appHash));
            RolledOk(AfterRollback(w, b, r, appHash, blocks), b.header.height, FullEntry(w'.store, b.header.height))
  {
    RollbackSaves(w, b, r, appHash, blocks);
    var w' := Step(w, ApplyBlock(b.id, b.header, r, appHash));
    var n := b.header.height;
    assert NextHeight(w'.state) == n + 1 && w'.lo <= n && w'.paramsLo <= n;
    hide RolledBack; hide WorldOk; hide ValidateBlock; hide HoldsLastTwo; hide Step; hide RolledOk; hide Save; hide FullEntry;
    SavedOver(w', RolledBack(blocks, w'.store).1.value, n);
  }

  /** SeamHolds, read off before the rollback, is what the exact condition asks of the store after it. */
  lemma SeamSeenBefore(w: World, b: Block, r: Responses, appHash: Bytes, blocks: Blocks, full: bool)
    requires CanRollBack(w, b, r, blocks)
    ensures var n := b.header.height;
            var w' := Step(w, ApplyBlock(b.id, b.header, r, appHash));
            var w0 := AfterRollback(w, b, r, appHash, blocks);
            && n in w0.truth.vals && n + 1 in w0.truth.vals && n + 1 in w0.truth.valsChanged
            && (SeamHolds(w'.state, n, full) <==>
                  w0.truth.valsChanged[n + 1] < n || (full && w0.truth.vals[n] == w0.truth.vals[n + 1]))
  {
    RollbackSaves(w, b, r, appHash, blocks);
    var w' := Step(w, ApplyBlock(b.id, b.header, r, appHash));
    var n := b.header.height;
    assert NextHeight(w'.state) == n + 1 && w'.lo == w.lo && w'.paramsLo == w.paramsLo;
    assert ValEntryOk(w'.store.vals, w'.truth, n);
    assert w'.truth.vals[n] == w'.state.lastVals && w'.truth.vals[n + 1] == w'.state.vals;
    hide RolledBack; hide ValsOk; hide ParamsOk; hide ValidateBlock; hide HoldsLastTwo; hide Step;
  }

  /** Some pruning went past n and filled its entry in. */
  ghost predicate PrunedPast(ops: seq<Op>, n: int) {
    exists k :: 0 <= k < |ops| && ops[k].Prune? && ops[k].from <= n < ops[k].to
  }

  lemma PrunedPastLast(ops: seq<Op>, k: nat, n: int)
    requires k + 1 == |ops|
    ensures PrunedPast(ops, n) <==> PrunedPast(ops[..k], n) || (ops[k].Prune? && ops[k].from <= n < ops[k].to)
  {
    if j :| 0 <= j < k && ops[..k][j].Prune? && ops[..k][j].from <= n < ops[..k][j].to { assert ops[j] == ops[..k][j]; }
    if j :| 0 <= j < |ops| && ops[j].Prune? && ops[j].from <= n < ops[j].to { if j < k { assert ops[..k][j] == ops[j]; } }
  }

  lemma {:induction false} RolledRun(w: World, n: int, full: bool, ops: seq<Op>)
    requires RolledOk(w, n, full) && AllPossible(w, ops)
    ensures RolledOk(Run(w, ops), n, full || PrunedPast(ops, n)) && SameSeam(w.truth, Run(w, ops).truth, n)
  {
    hide ValsOk; hide ParamsOk; hide TailOk; hide Step; hide Possible; hide PointBack;
    if ops == [] {
      assert !PrunedPast(ops, n);
    } else {
      var k := |ops| - 1;
      assert AllPossible(w, ops[..k]) by {
        forall j | 0 <= j < k ensures Possible(Run(w, ops[..k][..j]), ops[..k][j]) { assert ops[..k][..j] == ops[..j]; }
      }
      RolledRun(w, n, full, ops[..k]);
      var u := Run(w, ops[..k]);
      assert Possible(u, ops[k]);
      PrunedPastLast(ops, k, n);
      hide PrunedPast; hide RolledOk; hide AllPossible;
      if ops[k].ApplyBlock? {
        RolledBlock(u, n, full || PrunedPast(ops[..k], n), ops[k]);
      } else {
        RolledPrune(u, n, full || PrunedPast(ops[..k], n), ops[k]);
      }
    }
  }

  lemma RolledLoads(u: World, n: int, full: bool, h: int)
    requires RolledOk(u, n, full)
    ensures n in u.truth.vals && n + 1 in u.truth.vals && n + 1 in u.truth.valsChanged
    ensures u.lo <= h <= NextHeight(u.state) + 1 ==>
              && h in u.truth.vals && h in u.store.vals
              && (LoadsRight(u.store.vals, h, u.truth.vals[h]) <==>
                    || h <= n || u.store.vals[h].lastChanged > n || h - h % CHECKPOINT_INTERVAL > n
                    || u.truth.valsChanged[n + 1] < n || (full && u.truth.vals[n] == u.truth.vals[n + 1]))
    ensures u.paramsLo <= h <= NextHeight(u.state) ==>
              h in u.truth.params && LoadParams(u.store.params, h) == Ok(u.truth.params[h])
  {
    var hi := NextHeight(u.state) + 1;
    if u.lo <= h <= n {
      assert ValEntryOk(u.store.vals, u.truth, h);
      LoadIsTruth(u.store.vals, u.truth, u.lo, n, h);
    } else if u.lo <= h <= hi {
      assert TailEntryOk(u.store.vals, u.truth, n, full, h);
      LoadExactly(u.store.vals, u.truth, n, full, h);
    }
    if u.paramsLo <= h <= hi - 1 {
      LoadParamsIsTruth(u.store.params, u.truth, u.paramsLo, hi - 1, h);
    }
    hide LoadValidators; hide LoadParams; hide TailOk; hide ParamsOk;
  }

  /**
   What loads after block n was rolled back and any blocks were applied and
   states pruned since.  Heights up to n, and all parameters, load what was in
   force.  A height above n does exactly if its recorded change or a checkpoint
   lies above n, or the clamped change height holds: the last change was older
   than n, or nothing changed from n to n + 1 and the entry at n was full or has
   been filled in by a pruning past n.
   */
  lemma LoadsAfterRollback(w: World, b: Block, r: Responses, appHash: Bytes, blocks: Blocks, ops: seq<Op>, h: int)
    requires CanRollBack(w, b, r, blocks) && AllPossible(AfterRollback(w, b, r, appHash, blocks), ops)
    ensures var n := b.header.height;
            var w' := Step(w, ApplyBlock(b.id, b.header, r, appHash));
            var u := Run(AfterRollback(w, b, r, appHash, blocks), ops);
            && (u.lo <= h <= NextHeight(u.state) + 1 ==>
                  && h in u.truth.vals && h in u.store.vals
                  && (LoadsRight(u.store.vals, h, u.truth.vals[h]) <==>
                        || h <= n || u.store.vals[h].lastChanged > n || h - h % CHECKPOINT_INTERVAL > n
                        || SeamHolds(w'.state, n, FullEntry(w'.store, n) || PrunedPast(ops, n))))
            && (u.paramsLo <= h <= NextHeight(u.state) ==>
                  h in u.truth.params && LoadParams(u.store.params, h) == Ok(u.truth.params[h]))
  {
    hide *;
    var n := b.header.height;
    var w' := Step(w, ApplyBlock(b.id, b.header, r, appHash));
    var w0 := AfterRollback(w, b, r, appHash, blocks);
    var full := FullEntry(w'.store, n);
    RollbackRolls(w, b, r, appHash, blocks);
    SeamSeenBefore(w, b, r, appHash, blocks, full || PrunedPast(ops, n));
    RolledRun(w0, n, full, ops);
    SameSeamIs(w0.truth, Run(w0, ops).truth, n);
    RolledLoads(Run(w0, ops), n, full || PrunedPast(ops, n), h);
  }

  lemma SameSeamIs(t: Truth, t': Truth, n: int)
    requires SameSeam(t, t', n)
    ensures n in t.vals && n + 1 in t.vals && n + 1 in t.valsChanged && n in t'.vals && n + 1 in t'.vals && n + 1 in t'.valsChanged
    ensures t'.vals[n] == t.vals[n] && t'.vals[n + 1] == t.vals[n + 1] && t'.valsChanged[n + 1] == t.valsChanged[n + 1]
  {
  }

  /** Even so, pruning never fails after a rollback: what it must keep can be loaded. */
  lemma PrunesAfterRollback(w: World, b: Block, r: Responses, appHash: Bytes, blocks: Blocks, ops: seq<Op>, op: Op)
    requires CanRollBack(w, b, r, blocks) && AllPossible(AfterRollback(w, b, r, appHash, blocks), ops)
    requires op.Prune? && Possible(Run(AfterRollback(w, b, r, appHash, blocks), ops), op)
    ensures CanPrune(Run(AfterRollback(w, b, r, appHash, blocks), ops).store, op.from, op.to)
  {
    hide *;
    var n := b.header.height;
    var w' := Step(w, ApplyBlock(b.id, b.header, r, appHash));
    var w0 := AfterRollback(w, b, r, appHash, blocks);
    RollbackRolls(w, b, r, appHash, blocks);
    RolledRun(w0, n, FullEntry(w'.store, n), ops);
    RolledPrune(Run(w0, ops), n, FullEntry(w'.store, n) || PrunedPast(ops, n), op);
  }

  // --- examples ----------------------------------------------------------------------

  const FEW := [Validator(1, 10)]
  const MORE := [Validator(1, 10), Validator(2, 5)]
  const GENESIS := State(0, 1, 0, ZERO_REF, 0, FEW, FEW, [], 1, 0, 1, 0, 0)
  const NO_CHANGE := Responses(None, None, 0)
  const TO_MORE := Responses(Some(MORE), None, 0)
  const TO_FEW := Responses(Some(FEW), None, 0)

  function Ref(k: nat): BlockRef { BlockRef(k, k) }

  /** Block k of a chain that starts from GENESIS, for the given validators. */
  function Nth(k: nat, vals: ValidatorSet, nextVals: ValidatorSet): Block
    requires k > 0
  {
    Block(Ref(k), Header(0, k, k - 1, if k == 1 then ZERO_REF else Ref(k - 1), vals, nextVals, 0, 0, 0), [], true)
  }

  ghost function Apply(w: World, b: Block, r: Responses): World { Step(w, ApplyBlock(b.id, b.header, r, 0)) }

  lemma Applied(w: World, b: Block, r: Responses)
    requires WorldOk(w) && b.header.height == NextHeight(w.state) && r.newVals != Some([])
    ensures var w' := Apply(w, b, r);
            && WorldOk(w') && w'.lo == w.lo && w'.state == NextState(w.state, ApplyBlock(b.id, b.header, r, 0))
            && w'.store.state == Some(w'.state)
            && Some(w'.store.vals) == SaveVals(w.store.vals, b.header.height + 2, w'.state.lastHeightValsChanged, w'.state.nextVals)
  {
    ApplyBlockOk(w, ApplyBlock(b.id, b.header, r, 0));
    hide WorldOk;
  }

  // One block without a change; the second, which is rolled back, changes the validators.
  ghost function AfterOne(): World { Apply(GenesisWorld(GENESIS), Nth(1, FEW, FEW), NO_CHANGE) }

  const TWO_BLOCKS := Blocks(2, map[1 := Meta(Ref(1), Nth(1, FEW, FEW).header), 2 := Meta(Ref(2), Nth(2, FEW, FEW).header)])

  lemma Genesis()
    ensures var w := GenesisWorld(GENESIS);
            WorldOk(w) && w.state == GENESIS && w.lo == 1 && 2 in w.store.vals && w.store.vals[2] == ValInfo(1, None)
  {
    GenesisWorldOk(GENESIS);
    hide WorldOk;
  }

  lemma OneBlock()
    ensures CanRollBack(AfterOne(), Nth(2, FEW, FEW), TO_MORE, TWO_BLOCKS) && AfterOne().lo == 1
    ensures var w' := Apply(AfterOne(), Nth(2, FEW, FEW), TO_MORE); !FullEntry(w'.store, 2) && !SeamHolds(w'.state, 2, false) && SeamHolds(w'.state, 2, true)
  {
    hide WorldOk; hide Apply; hide GenesisWorld; hide LoadValidators;
    Genesis();
    Applied(GenesisWorld(GENESIS), Nth(1, FEW, FEW), NO_CHANGE);
    var w := AfterOne();
    assert w.state == State(0, 1, 1, Ref(1), 0, FEW, FEW, FEW, 1, 0, 1, 0, 0) && w.lo == 1;
    assert 2 in w.store.vals && w.store.vals[2] == ValInfo(1, None);
    hide AfterOne;
    Applied(w, Nth(2, FEW, FEW), TO_MORE);
  }

  /**
   The seam does not hold, so after the rollback height 3 does not load, nor
   does any height saved by later blocks until a change or a checkpoint; only a
   pruning past height 2 makes them load.
   */
  lemma RollbackLosesHeights(ops: seq<Op>, h: int)
    requires AllPossible(AfterRollback(AfterOne(), Nth(2, FEW, FEW), TO_MORE, 0, TWO_BLOCKS), ops)
    ensures var u := Run(AfterRollback(AfterOne(), Nth(2, FEW, FEW), TO_MORE, 0, TWO_BLOCKS), ops);
            3 <= h <= NextHeight(u.state) + 1 && u.lo <= h ==>
              && h in u.store.vals && h in u.truth.vals
              && (h < CHECKPOINT_INTERVAL && u.store.vals[h].lastChanged <= 2 ==>
                    (LoadsRight(u.store.vals, h, u.truth.vals[h]) <==> PrunedPast(ops, 2)))
  {
    hide AfterOne; hide CanRollBack; hide SeamHolds; hide AfterRollback; hide LoadsRight; hide Run; hide AllPossible; hide Step;
    hide FullEntry; hide PrunedPast;
    OneBlock();
    LoadsAfterRollback(AfterOne(), Nth(2, FEW, FEW), TO_MORE, 0, TWO_BLOCKS, ops, h);
  }

  // One block changes the validators, the next changes them back, and the third, which is rolled back, nothing.
  ghost function AfterTwo(): World {
    Apply(Apply(GenesisWorld(GENESIS), Nth(1, FEW, FEW), TO_MORE), Nth(2, FEW, MORE), TO_FEW)
  }

  const THREE_BLOCKS := Blocks(3, map[2 := Meta(Ref(2), Nth(2, FEW, MORE).header), 3 := Meta(Ref(3), Nth(3, MORE, FEW).header)])

  lemma ChangedOnce()
    ensures var w := Apply(GenesisWorld(GENESIS), Nth(1, FEW, FEW), TO_MORE);
            && WorldOk(w) && w.state == State(0, 1, 1, Ref(1), 0, MORE, FEW, FEW, 3, 0, 1, 0, 0) && w.lo == 1
            && 3 in w.store.vals && w.store.vals[3] == ValInfo(3, Some(MORE))
  {
    hide WorldOk; hide Apply; hide GenesisWorld;
    Genesis();
    Applied(GenesisWorld(GENESIS), Nth(1, FEW, FEW), TO_MORE);
  }

  lemma TwoBlocks()
    ensures CanRollBack(AfterTwo(), Nth(3, MORE, FEW), NO_CHANGE, THREE_BLOCKS)
    ensures var w' := Apply(AfterTwo(), Nth(3, MORE, FEW), NO_CHANGE);
            3 in w'.store.vals && w'.store.vals[3] == ValInfo(3, Some(MORE)) && w'.state.lastHeightValsChanged == 4
            && w'.state.vals == FEW
  {
    hide WorldOk; hide Apply; hide GenesisWorld;
    ChangedOnce();
    Applied(Apply(GenesisWorld(GENESIS), Nth(1, FEW, FEW), TO_MORE), Nth(2, FEW, MORE), TO_FEW);
    var w := AfterTwo();
    assert w.state == State(0, 1, 2, Ref(2), 1, FEW, MORE, FEW, 4, 0, 1, 0, 0) && w.lo == 1;
    assert 3 in w.store.vals && w.store.vals[3] == ValInfo(3, Some(MORE));
    hide AfterTwo;
    Applied(w, Nth(3, MORE, FEW), NO_CHANGE);
  }

  /** The entry at n is full, but holds the set the clamped pointer should not lead to: the wrong validators load. */
  lemma RollbackLoadsWrongSet()
    ensures var u := AfterRollback(AfterTwo(), Nth(3, MORE, FEW), NO_CHANGE, 0, THREE_BLOCKS);
            4 in u.truth.vals && u.truth.vals[4] == FEW && LoadValidators(u.store.vals, 4) == Ok(LoadedVals(MORE, 1))
  {
    hide AfterTwo; hide CanRollBack; hide RolledBack; hide WorldOk; hide Step;
    TwoBlocks();
    RollbackSaves(AfterTwo(), Nth(3, MORE, FEW), NO_CHANGE, 0, THREE_BLOCKS);
  }
}
