/**
 The state store keeps a full validator set only at heights where it changed and
 at every 100000th height; other heights hold a pointer to the last change.
 Consensus parameters are stored at change heights only.  Loading follows the
 pointer, pruning keeps what the remaining heights point at.
 */
module StateStore {
  import opened Basics
  import opened Validators
  import opened States

  const CHECKPOINT_INTERVAL := 100000
  const MAX_INT32 := 0x7fff_ffff

  datatype ValInfo = ValInfo(lastChanged: int, vals: Option<ValidatorSet>)

  /** An entry without parameters points at its change height (the source marks it with the empty struct). */
  datatype ParamsInfo = ParamsInfo(lastChanged: int, params: Option<ConsensusParams>)

  type ValDb = map<int, ValInfo>
  type ParamsDb = map<int, ParamsInfo>

  datatype LoadError = NoEntry | NoFullSet(at: int) | BadIncrement(times: int)

  /** A reconstructed set has had its proposer priorities incremented `increments` times. */
  datatype LoadedVals = LoadedVals(vals: ValidatorSet, increments: int)

  function Max(a: int, b: int): int { if a < b then b else a }

  function LastStoredHeightFor(height: int, lastChanged: int): int {
    Max(height - height % CHECKPOINT_INTERVAL, lastChanged)
  }

  function LoadValidators(db: ValDb, h: int): Result<LoadedVals, LoadError> {
    if h !in db then Err(NoEntry)
    else if db[h].vals.Some? then Ok(LoadedVals(db[h].vals.value, 0))
    else
      var at := LastStoredHeightFor(h, db[h].lastChanged);
      if at !in db || db[at].vals.None? then Err(NoFullSet(at))
      else if h - at > MAX_INT32 || h - at <= 0 || db[at].vals.value == [] then Err(BadIncrement(h - at))
      else Ok(LoadedVals(db[at].vals.value, h - at))
  }

  function LoadParams(db: ParamsDb, h: int): Result<ConsensusParams, LoadError> {
    if h !in db then Err(NoEntry)
    else if db[h].params.Some? then Ok(db[h].params.value)
    else if db[h].lastChanged !in db || db[db[h].lastChanged].params.None? then Err(NoFullSet(db[h].lastChanged))
    else Ok(db[db[h].lastChanged].params.value)
  }

  /** saveValidatorsInfo refuses a change height above the height itself. */
  function SaveVals(db: ValDb, h: int, lastChanged: int, vals: ValidatorSet): Option<ValDb> {
    if lastChanged > h then None
    else Some(db[h := ValInfo(lastChanged, if h == lastChanged || h % CHECKPOINT_INTERVAL == 0 then Some(vals) else None)])
  }

  function SaveParams(db: ParamsDb, h: int, lastChanged: int, params: ConsensusParams): ParamsDb {
    db[h := ParamsInfo(lastChanged, if lastChanged == h then Some(params) else None)]
  }

  datatype Store = Store(vals: ValDb, params: ParamsDb, state: Option<State>)

  const EMPTY_STORE := Store(map[], map[], None)

  /** save; None if a validators entry is refused. */
  function Save(st: Store, s: State): Option<Store> {
    var next := NextHeight(s);
    var first := if s.lastBlockHeight == 0 then SaveVals(st.vals, next, next, s.vals) else Some(st.vals);
    if first.None? then None
    else
      var second := SaveVals(first.value, next + 1, s.lastHeightValsChanged, s.nextVals);
      if second.None? then None
      else Some(Store(second.value, SaveParams(st.params, next, s.lastHeightParamsChanged, s.params), Some(s)))
  }

  function Bootstrap(st: Store, s: State): Option<Store> {
    var h := NextHeight(s);
    var v0 := if h > 1 && s.lastVals != [] then SaveVals(st.vals, h - 1, h - 1, s.lastVals) else Some(st.vals);
    var v1 := SaveVals(v0.value, h, h, s.vals);
    var v2 := SaveVals(v1.value, h + 1, h + 1, s.nextVals);
    Some(Store(v2.value, SaveParams(st.params, h, s.lastHeightParamsChanged, s.params), Some(s)))
  }

  // --- pruning -------------------------------------------------------------

  /** Heights whose full set the entry at `to` still needs. */
  function KeepVals(db: ValDb, to: int): set<int> {
    if to in db && db[to].vals.None? then {db[to].lastChanged, LastStoredHeightFor(to, db[to].lastChanged)} else {}
  }

  function KeepParams(db: ParamsDb, to: int): set<int> {
    if to in db && db[to].params.None? then {db[to].lastChanged} else {}
  }

  /** What pruning leaves at a height below `to`: nothing, or the kept entry with its full set filled in. */
  function ValsLeft(db: ValDb, to: int, h: int): Option<ValInfo> {
    if h !in KeepVals(db, to) || h !in db then None
    else if db[h].vals.Some? then Some(db[h])
    else if LoadValidators(db, h).Ok? then Some(ValInfo(h, Some(LoadValidators(db, h).value.vals)))
    else None
  }

  function ParamsLeft(db: ParamsDb, to: int, h: int): Option<ParamsInfo> {
    if h !in KeepParams(db, to) || h !in db then None
    else if db[h].params.Some? then Some(db[h])
    else if LoadParams(db, h).Ok? then Some(ParamsInfo(h, Some(LoadParams(db, h).value)))
    else None
  }

  /** The store once heights `from` up to `to` are pruned; pruning goes downwards, so also every stage on the way. */
  function PrunedVals(db: ValDb, from: int, to: int): ValDb {
    map h | h in db && (!(from <= h < to) || ValsLeft(db, to, h).Some?) ::
      if from <= h < to then ValsLeft(db, to, h).value else db[h]
  }

  function PrunedParams(db: ParamsDb, from: int, to: int): ParamsDb {
    map h | h in db && (!(from <= h < to) || ParamsLeft(db, to, h).Some?) ::
      if from <= h < to then ParamsLeft(db, to, h).value else db[h]
  }

  /** Everything pruning must keep below `to` can be loaded. */
  predicate CanPrune(st: Store, from: int, to: int) {
    && 0 < from < to && to in st.vals && to in st.params
    && (forall h :: h in KeepVals(st.vals, to) && from <= h < to ==> LoadValidators(st.vals, h).Ok?)
    && (forall h :: h in KeepParams(st.params, to) && from <= h < to ==> LoadParams(st.params, h).Ok?)
  }

  /** No entry points above itself. */
  ghost predicate PointBack(st: Store) {
    && (forall h :: h in st.vals ==> st.vals[h].lastChanged <= h)
    && (forall h :: h in st.params ==> st.params[h].lastChanged <= h)
  }

  /** A batch of pending writes: Some sets an entry, None deletes it. */
  function Flush<T>(db: map<int, T>, batch: map<int, Option<T>>): map<int, T> {
    map h | h in db.Keys + batch.Keys && (h !in batch || batch[h].Some?) ::
      if h in batch then batch[h].value else db[h]
  }

  /** The database as an object: saving, bootstrapping and pruning update it in place. */
  class DbStore {
    var vals: ValDb
    var params: ParamsDb
    var state: Option<State>

    ghost function View(): Store
      reads this
    {
      Store(vals, params, state)
    }

    constructor ()
      ensures View() == EMPTY_STORE
    {
      vals, params, state := map[], map[], None;
    }

    method SaveValidatorsInfo(h: int, lastChanged: int, set_: ValidatorSet) returns (ok: bool)
      modifies this`vals
      ensures ok == SaveVals(old(vals), h, lastChanged, set_).Some?
      ensures vals == if ok then SaveVals(old(vals), h, lastChanged, set_).value else old(vals)
    {
      if lastChanged > h {
        return false;
      }
      var info := ValInfo(lastChanged, None);
      if h == lastChanged || h % CHECKPOINT_INTERVAL == 0 {
        info := info.(vals := Some(set_));
      }
      vals := vals[h := info];
      return true;
    }

    method SaveState(s: State) returns (ok: bool)
      modifies this
      ensures ok == Save(old(View()), s).Some?
      ensures ok ==> View() == Save(old(View()), s).value
      ensures !ok ==> state == old(state) && params == old(params)
    {
      var next := s.lastBlockHeight + 1;
      if next == 1 {
        next := s.initialHeight;
        ok := SaveValidatorsInfo(next, next, s.vals);
        if !ok {
          return;
        }
      }
      ok := SaveValidatorsInfo(next + 1, s.lastHeightValsChanged, s.nextVals);
      if !ok {
        return;
      }
      params := SaveParams(params, next, s.lastHeightParamsChanged, s.params);
      state := Some(s);
    }

    method BootstrapState(s: State) returns (ok: bool)
      modifies this
      ensures ok && View() == Bootstrap(old(View()), s).value
    {
      var h := s.lastBlockHeight + 1;
      if h == 1 {
        h := s.initialHeight;
      }
      if h > 1 && s.lastVals != [] {
        ok := SaveValidatorsInfo(h - 1, h - 1, s.lastVals);
      }
      ok := SaveValidatorsInfo(h, h, s.vals);
      ok := SaveValidatorsInfo(h + 1, h + 1, s.nextVals);
      params := SaveParams(params, h, s.lastHeightParamsChanged, s.params);
      state := Some(s);
    }

    /** The write pruning makes at one height: delete it, or keep it with its full set. */
    method PruneValsAt(h: int, keep: bool) returns (ok: bool, write: Option<ValInfo>)
      ensures ok == (keep ==> LoadValidators(vals, h).Ok?)
      ensures ok ==> write == if keep then Some(Filled(vals, h)) else None
    {
      if !keep {
        return true, None;
      }
      if h !in vals || vals[h].vals.None? {
        var loaded := LoadValidators(vals, h);
        if loaded.Err? {
          return false, None;
        }
        return true, Some(ValInfo(h, Some(loaded.value.vals)));
      }
      return true, Some(vals[h]);
    }

    method PruneParamsAt(h: int, keep: bool) returns (ok: bool, write: Option<ParamsInfo>)
      ensures ok == (keep ==> LoadParams(params, h).Ok?)
      ensures ok ==> write == if keep then Some(FilledParams(params, h)) else None
    {
      if !keep {
        return true, None;
      }
      if h !in params {
        return false, None;
      }
      if params[h].params.None? {
        var loaded := LoadParams(params, h);
        if loaded.Err? {
          return false, None;
        }
        return true, Some(ParamsInfo(h, Some(loaded.value)));
      }
      return true, Some(params[h]);
    }

    /**
     PruneStates: a downward loop over batched writes, flushed every thousand
     heights.  It reads the database while writes are pending, so what it finds
     is what was there before only because it never looks above the current height.
     */
    method PruneStates(from: int, to: int) returns (ok: bool)
      modifies this`vals, this`params
      ensures PointBack(old(View())) ==> ok == CanPrune(old(View()), from, to)
      ensures PointBack(old(View())) && ok ==>
        vals == PrunedVals(old(vals), from, to) && params == PrunedParams(old(params), from, to)
    {
      hide LoadValidators; hide LoadParams; hide Flush; hide Pending;
      if from <= 0 || to <= 0 || from >= to {
        return false;
      }
      if to !in vals || to !in params {
        return false;
      }
      var keepVals := KeepVals(vals, to);
      var keepParams := KeepParams(params, to);
      hide KeepVals; hide KeepParams;
      var valBatch: map<int, Option<ValInfo>> := map[];
      var paramsBatch: map<int, Option<ParamsInfo>> := map[];
      var pruned := 0;
      var h := to - 1;
      ghost var st := View();
      ghost var flushed := to;
      StartPruning(st, to);
      hide PrunedVals; hide PrunedParams; hide PointBack;
      while h >= from
        invariant from - 1 <= h < flushed <= to
        invariant keepVals == KeepVals(st.vals, to) && keepParams == KeepParams(st.params, to)
        invariant PointBack(st) ==> Progress(st, to, h, flushed, View(), valBatch, paramsBatch)
        decreases h
      {
        if PointBack(st) { SeenAsBefore(st, flushed, to, h); }
        var valWrite, paramsWrite;
        ok, valWrite := PruneValsAt(h, h in keepVals);
        if !ok {
          return;
        }
        ok, paramsWrite := PruneParamsAt(h, h in keepParams);
        if !ok {
          return;
        }
        if PointBack(st) {
          LeftIsFilled(st, View(), flushed, to, h);
          MorePending(st, to, h, flushed, valBatch, paramsBatch, valWrite, paramsWrite);
        }
        valBatch := valBatch[h := valWrite];
        paramsBatch := paramsBatch[h := paramsWrite];
        pruned := pruned + 1;
        if pruned % 1000 == 0 {
          if PointBack(st) { FlushPending(st, to, h - 1, flushed, valBatch, paramsBatch); }
          vals := Flush(vals, valBatch);
          params := Flush(params, paramsBatch);
          valBatch, paramsBatch := map[], map[];
          flushed := h;
          NothingPending(st, to, h);
        }
        h := h - 1;
      }
      if PointBack(st) { FlushPending(st, to, h, flushed, valBatch, paramsBatch); }
      vals := Flush(vals, valBatch);
      params := Flush(params, paramsBatch);
      return true;
    }
  }

  function Filled(db: ValDb, h: int): ValInfo
    requires LoadValidators(db, h).Ok?
  {
    if db[h].vals.Some? then db[h] else ValInfo(h, Some(LoadValidators(db, h).value.vals))
  }

  function FilledParams(db: ParamsDb, h: int): ParamsInfo
    requires LoadParams(db, h).Ok?
  {
    if db[h].params.Some? then db[h] else ParamsInfo(h, Some(LoadParams(db, h).value))
  }

  lemma StartPruning(st: Store, to: int)
    ensures st.vals == PrunedVals(st.vals, to, to) && st.params == PrunedParams(st.params, to, to)
    ensures Pending(st, to, to - 1, to, map[], map[])
  {
  }

  lemma NothingPending(st: Store, to: int, h: int)
    ensures Pending(st, to, h - 1, h, map[], map[])
  {
  }

  lemma MorePending(st: Store, to: int, h: int, flushed: int, valBatch: map<int, Option<ValInfo>>,
                    paramsBatch: map<int, Option<ParamsInfo>>, valWrite: Option<ValInfo>, paramsWrite: Option<ParamsInfo>)
    requires h < flushed && Pending(st, to, h, flushed, valBatch, paramsBatch)
    requires valWrite == ValsLeft(st.vals, to, h) && paramsWrite == ParamsLeft(st.params, to, h)
    ensures Pending(st, to, h - 1, flushed, valBatch[h := valWrite], paramsBatch[h := paramsWrite])
  {
    hide ValsLeft; hide ParamsLeft;
  }

  /** If everything kept can be loaded, what is left at a height is the kept entry, filled in. */
  lemma LeftIsFilled(st: Store, now: Store, flushed: int, to: int, h: int)
    requires PointBack(st) && h < flushed
    requires now.vals == PrunedVals(st.vals, flushed, to) && now.params == PrunedParams(st.params, flushed, to)
    requires h in KeepVals(st.vals, to) ==> LoadValidators(now.vals, h).Ok?
    requires h in KeepParams(st.params, to) ==> LoadParams(now.params, h).Ok?
    ensures ValsLeft(st.vals, to, h) == if h in KeepVals(st.vals, to) then Some(Filled(now.vals, h)) else None
    ensures ParamsLeft(st.params, to, h) == if h in KeepParams(st.params, to) then Some(FilledParams(now.params, h)) else None
  {
    hide PrunedVals; hide PrunedParams;
    SeenAsBefore(st, flushed, to, h);
  }

  /** The pending writes are exactly the pruning of the heights between the cursor and the last flush. */
  ghost predicate Pending(st: Store, to: int, h: int, flushed: int, valBatch: map<int, Option<ValInfo>>,
                          paramsBatch: map<int, Option<ParamsInfo>>)
  {
    && (forall x :: x in valBatch <==> h < x < flushed)
    && (forall x :: x in paramsBatch <==> h < x < flushed)
    && (forall x :: x in valBatch ==> valBatch[x] == ValsLeft(st.vals, to, x))
    && (forall x :: x in paramsBatch ==> paramsBatch[x] == ParamsLeft(st.params, to, x))
  }

  ghost predicate Progress(st: Store, to: int, h: int, flushed: int, now: Store, valBatch: map<int, Option<ValInfo>>,
                           paramsBatch: map<int, Option<ParamsInfo>>)
  {
    && now.vals == PrunedVals(st.vals, flushed, to) && now.params == PrunedParams(st.params, flushed, to)
    && Pending(st, to, h, flushed, valBatch, paramsBatch)
    && (forall x :: x in KeepVals(st.vals, to) && h < x < to ==> LoadValidators(st.vals, x).Ok?)
    && (forall x :: x in KeepParams(st.params, to) && h < x < to ==> LoadParams(st.params, x).Ok?)
  }

  lemma FlushIs<T>(db: map<int, T>, batch: map<int, Option<T>>, db': map<int, T>)
    requires forall x :: x in db' <==> (if x in batch then batch[x].Some? else x in db)
    requires forall x :: x in db' ==> db'[x] == if x in batch then batch[x].value else db[x]
    ensures Flush(db, batch) == db'
  {
    var f := Flush(db, batch);
    assert f.Keys == db'.Keys by {
      forall x ensures x in f.Keys <==> x in db'.Keys { }
    }
    forall x | x in f ensures f[x] == db'[x] {
      assert x in db';
    }
  }

  lemma FlushPending(st: Store, to: int, h: int, flushed: int, valBatch: map<int, Option<ValInfo>>,
                     paramsBatch: map<int, Option<ParamsInfo>>)
    requires h < flushed <= to && Pending(st, to, h, flushed, valBatch, paramsBatch)
    ensures Flush(PrunedVals(st.vals, flushed, to), valBatch) == PrunedVals(st.vals, h + 1, to)
    ensures Flush(PrunedParams(st.params, flushed, to), paramsBatch) == PrunedParams(st.params, h + 1, to)
  {
    hide LoadValidators; hide LoadParams; hide KeepVals; hide KeepParams;
    FlushIs(PrunedVals(st.vals, flushed, to), valBatch, PrunedVals(st.vals, h + 1, to));
    FlushIs(PrunedParams(st.params, flushed, to), paramsBatch, PrunedParams(st.params, h + 1, to));
  }

  /** At and below the cursor the database still reads as it did before pruning started. */
  lemma SeenAsBefore(st: Store, flushed: int, to: int, h: int)
    requires PointBack(st) && h < flushed
    ensures var v := PrunedVals(st.vals, flushed, to);
            && (h in v <==> h in st.vals) && (h in v ==> v[h] == st.vals[h])
            && LoadValidators(v, h) == LoadValidators(st.vals, h)
    ensures var q := PrunedParams(st.params, flushed, to);
            && (h in q <==> h in st.params) && (h in q ==> q[h] == st.params[h])
            && LoadParams(q, h) == LoadParams(st.params, h)
  {
    if h in st.vals { assert LastStoredHeightFor(h, st.vals[h].lastChanged) <= h; }
  }

  // --- the full map the store stands for ------------------------------------

  /** What was in force at each height, and the height at which it last changed. */
  datatype Truth = Truth(vals: map<int, ValidatorSet>, valsChanged: map<int, int>,
                         params: map<int, ConsensusParams>, paramsChanged: map<int, int>)

  ghost predicate FullAt(db: ValDb, h: int, vals: ValidatorSet) { h in db && db[h].vals == Some(vals) }

  /** One height of the compressed map: its own set, or a pointer that reaches a full copy of it. */
  ghost predicate ValEntryOk(db: ValDb, t: Truth, h: int)
    requires h in t.vals && h in t.valsChanged
  {
    var at := t.valsChanged[h];
    && 0 < at <= h && t.vals[h] != []
    && h in db && db[h].lastChanged == at
    && (db[h].vals.Some? <==> h == at || h % CHECKPOINT_INTERVAL == 0)
    && (db[h].vals.Some? ==> db[h].vals.value == t.vals[h])
    && (db[h].vals.None? ==> FullAt(db, LastStoredHeightFor(h, at), t.vals[h]))
  }

  /** From one height to the next either nothing changes or the change height is the height itself. */
  ghost predicate Continues(changed: map<int, int>, lo: int, hi: int) {
    && (forall h :: lo <= h <= hi ==> h in changed)
    && (forall h :: lo < h <= hi ==> changed[h] == h || changed[h] == changed[h - 1])
  }

  ghost predicate ValsOk(db: ValDb, t: Truth, lo: int, hi: int) {
    && Continues(t.valsChanged, lo, hi)
    && (forall h :: lo <= h <= hi ==> h in t.vals)
    && (forall h :: lo < h <= hi ==> t.valsChanged[h] == h || t.vals[h] == t.vals[h - 1])
    && (forall h :: lo <= h <= hi ==> ValEntryOk(db, t, h))
  }

  ghost predicate ParamsEntryOk(db: ParamsDb, t: Truth, h: int)
    requires h in t.params && h in t.paramsChanged
  {
    var at := t.paramsChanged[h];
    && 0 < at <= h
    && h in db && db[h].lastChanged == at
    && (db[h].params.Some? <==> h == at)
    && (db[h].params.Some? ==> db[h].params.value == t.params[h])
    && (db[h].params.None? ==> at in db && db[at].params == Some(t.params[h]))
  }

  ghost predicate ParamsOk(db: ParamsDb, t: Truth, lo: int, hi: int) {
    && Continues(t.paramsChanged, lo, hi)
    && (forall h :: lo <= h <= hi ==> h in t.params)
    && (forall h :: lo <= h <= hi ==> ParamsEntryOk(db, t, h))
  }

  /**
   The compressed store refines the full map: every covered height loads, loads
   what was in force, and when it is reconstructed the increment count fits.
   */
  lemma LoadIsTruth(db: ValDb, t: Truth, lo: int, hi: int, h: int)
    requires ValsOk(db, t, lo, hi) && lo <= h <= hi
    ensures LoadValidators(db, h).Ok?
    ensures LoadValidators(db, h).value.vals == t.vals[h]
    ensures db[h].vals.None? ==> 1 <= LoadValidators(db, h).value.increments <= CHECKPOINT_INTERVAL - 1
  {
    assert ValEntryOk(db, t, h);
  }

  lemma LoadParamsIsTruth(db: ParamsDb, t: Truth, lo: int, hi: int, h: int)
    requires ParamsOk(db, t, lo, hi) && lo <= h <= hi
    ensures LoadParams(db, h) == Ok(t.params[h])
  {
    assert ParamsEntryOk(db, t, h);
  }

  // --- saving extends the covered heights -----------------------------------

  lemma SaveValsExtends(db: ValDb, t: Truth, lo: int, hi: int, at: int, vals: ValidatorSet, t': Truth)
    requires ValsOk(db, t, lo, hi) && lo <= hi && vals != [] && hi + 1 > 0
    requires at == hi + 1 || (at == t.valsChanged[hi] && vals == t.vals[hi])
    requires t'.vals == t.vals[hi + 1 := vals] && t'.valsChanged == t.valsChanged[hi + 1 := at]
    ensures SaveVals(db, hi + 1, at, vals).Some? && ValsOk(SaveVals(db, hi + 1, at, vals).value, t', lo, hi + 1)
  {
    assert ValEntryOk(db, t, hi);
    var db' := SaveVals(db, hi + 1, at, vals).value;
    forall h | lo <= h <= hi + 1 ensures ValEntryOk(db', t', h) {
      if h <= hi {
        assert ValEntryOk(db, t, h);
      } else if db'[h].vals.None? {
        SameCheckpoint(hi, hi + 1);
      }
    }
  }

  /** Two heights with no checkpoint above the first and up to the second share their checkpoint. */
  lemma SameCheckpoint(a: int, b: int)
    requires a <= b && b - b % CHECKPOINT_INTERVAL <= a
    ensures a - a % CHECKPOINT_INTERVAL == b - b % CHECKPOINT_INTERVAL
  {
  }

  lemma SaveParamsExtends(db: ParamsDb, t: Truth, lo: int, hi: int, at: int, params: ConsensusParams, t': Truth)
    requires ParamsOk(db, t, lo, hi) && lo <= hi && hi + 1 > 0
    requires at == hi + 1 || (at == t.paramsChanged[hi] && params == t.params[hi])
    requires t'.params == t.params[hi + 1 := params] && t'.paramsChanged == t.paramsChanged[hi + 1 := at]
    ensures ParamsOk(SaveParams(db, hi + 1, at, params), t', lo, hi + 1)
  {
    assert ParamsEntryOk(db, t, hi);
    var db' := SaveParams(db, hi + 1, at, params);
    forall h | lo <= h <= hi + 1 ensures ParamsEntryOk(db', t', h) {
      if h <= hi { assert ParamsEntryOk(db, t, h); }
    }
  }

  // --- pruning is invisible above the cut ------------------------------------

  lemma {:induction false} SameChange(changed: map<int, int>, lo: int, hi: int, to: int, h: int)
    requires Continues(changed, lo, hi) && lo <= to <= h <= hi && changed[h] < to
    ensures changed[to] == changed[h]
    decreases h - to
  {
    if to < h { SameChange(changed, lo, hi, to, h - 1); }
  }

  /** What an entry at or above the cut points at below the cut is what pruning keeps. */
  lemma KeptForAbove(db: ValDb, t: Truth, lo: int, hi: int, to: int, h: int)
    requires ValsOk(db, t, lo, hi) && lo <= to <= h <= hi && ValEntryOk(db, t, h) && db[h].vals.None?
    requires LastStoredHeightFor(h, db[h].lastChanged) < to
    ensures LastStoredHeightFor(h, db[h].lastChanged) in KeepVals(db, to)
  {
    assert ValEntryOk(db, t, h) && ValEntryOk(db, t, to);
    SameChange(t.valsChanged, lo, hi, to, h);
    SameCheckpoint(to, h);
  }

  /** At every stage of pruning, and at its end, each height from `to` on loads exactly as before. */
  lemma PruneValsInvisible(db: ValDb, t: Truth, lo: int, hi: int, stage: int, to: int, h: int)
    requires ValsOk(db, t, lo, hi) && lo <= to <= h <= hi
    ensures var db' := PrunedVals(db, stage, to);
            h in db' && db'[h] == db[h] && LoadValidators(db', h) == LoadValidators(db, h) && ValEntryOk(db', t, h)
  {
    assert ValEntryOk(db, t, h);
    if db[h].vals.None? {
      var at := LastStoredHeightFor(h, db[h].lastChanged);
      if at < to { KeptForAbove(db, t, lo, hi, to, h); }
    }
  }

  lemma PruneParamsInvisible(db: ParamsDb, t: Truth, lo: int, hi: int, stage: int, to: int, h: int)
    requires ParamsOk(db, t, lo, hi) && lo <= to <= h <= hi
    ensures var db' := PrunedParams(db, stage, to);
            h in db' && db'[h] == db[h] && LoadParams(db', h) == LoadParams(db, h) && ParamsEntryOk(db', t, h)
  {
    assert ParamsEntryOk(db, t, h) && ParamsEntryOk(db, t, to);
    if db[h].params.None? && db[h].lastChanged < to {
      SameChange(t.paramsChanged, lo, hi, to, h);
    }
  }

  // --- whole histories of the store ------------------------------------------

  /** A store, what it stands for, the lowest height it covers, and the chain's state. */
  datatype World = World(store: Store, truth: Truth, lo: int, paramsLo: int, state: State)

  datatype Op =
    | ApplyBlock(id: BlockRef, header: Header, responses: Responses, appHash: Bytes)
    | Prune(from: int, to: int)

  function Record(t: Truth, s: State): Truth {
    var next := NextHeight(s);
    Truth(t.vals[next + 1 := s.nextVals], t.valsChanged[next + 1 := s.lastHeightValsChanged],
          t.params[next := s.params], t.paramsChanged[next := s.lastHeightParamsChanged])
  }

  ghost predicate Possible(w: World, op: Op) {
    match op
    case ApplyBlock(id, h, r, _) => h.height == NextHeight(w.state) && r.newVals != Some([])
    case Prune(from, to) => w.lo <= from && w.paramsLo <= from < to <= NextHeight(w.state)
  }

  function NextState(s: State, op: Op): State
    requires op.ApplyBlock?
  {
    UpdateState(s, op.id, op.header, op.responses).(appHash := op.appHash)
  }

  ghost function Step(w: World, op: Op): World {
    match op
    case ApplyBlock(_, _, _, _) =>
      var s := NextState(w.state, op);
      var saved := Save(w.store, s);
      World(if saved.Some? then saved.value else w.store, Record(w.truth, s), w.lo, w.paramsLo, s)
    case Prune(from, to) =>
      World(w.store.(vals := PrunedVals(w.store.vals, from, to), params := PrunedParams(w.store.params, from, to)),
            w.truth, to, to, w.state)
  }

  /** The last state saved is the one the covered heights end with. */
  ghost predicate Fits(t: Truth, lo: int, s: State) {
    var next := NextHeight(s);
    && (lo <= s.lastBlockHeight ==> s.lastBlockHeight in t.vals && t.vals[s.lastBlockHeight] == s.lastVals)
    && next in t.vals && t.vals[next] == s.vals
    && next + 1 in t.vals && t.vals[next + 1] == s.nextVals
    && next + 1 in t.valsChanged && t.valsChanged[next + 1] == s.lastHeightValsChanged
    && next in t.params && t.params[next] == s.params
    && next in t.paramsChanged && t.paramsChanged[next] == s.lastHeightParamsChanged
  }

  ghost predicate WorldOk(w: World) {
    && 0 < w.lo && 0 < w.paramsLo && w.lo <= NextHeight(w.state) && w.paramsLo <= NextHeight(w.state)
    && w.state.lastBlockHeight >= 0 && w.state.initialHeight > 0
    && ValsOk(w.store.vals, w.truth, w.lo, NextHeight(w.state) + 1)
    && ParamsOk(w.store.params, w.truth, w.paramsLo, NextHeight(w.state))
    && Fits(w.truth, w.lo, w.state) && PointBack(w.store)
  }

  /** A new chain: the genesis state, possibly with InitChain's validators, is saved first. */
  ghost function GenesisWorld(s: State): World {
    var h := s.initialHeight;
    var saved := Save(EMPTY_STORE, s);
    World(if saved.Some? then saved.value else EMPTY_STORE,
          Truth(map[h := s.vals, h + 1 := s.nextVals], map[h := h, h + 1 := s.lastHeightValsChanged],
                map[h := s.params], map[h := s.lastHeightParamsChanged]),
          h, h, s)
  }

  ghost predicate IsGenesis(s: State) {
    && s.lastBlockHeight == 0 && s.initialHeight > 0 && s.vals == s.nextVals != []
    && s.lastHeightValsChanged == s.initialHeight == s.lastHeightParamsChanged
  }

  lemma GenesisWorldOk(s: State)
    requires IsGenesis(s)
    ensures Save(EMPTY_STORE, s).Some? && WorldOk(GenesisWorld(s))
  {
    var w := GenesisWorld(s);
    var h := s.initialHeight;
    assert h % CHECKPOINT_INTERVAL >= 0;
    forall x | h <= x <= h + 1 ensures ValEntryOk(w.store.vals, w.truth, x) {
      if x == h + 1 && w.store.vals[x].vals.None? { SameCheckpoint(h, h + 1); }
    }
  }

  /** A state-synced node: the state is shaped as the state provider builds it for a snapshot. */
  ghost predicate IsProvided(s: State) {
    && s.lastBlockHeight > 0 && s.initialHeight > 0 && s.vals != [] && s.nextVals != [] && s.lastVals != []
    && s.lastHeightValsChanged == s.lastBlockHeight + 2 && s.lastHeightParamsChanged == s.lastBlockHeight + 1
  }

  ghost function BootstrapWorld(s: State): World {
    var h := s.lastBlockHeight + 1;
    World(Bootstrap(EMPTY_STORE, s).value,
          Truth(map[h - 1 := s.lastVals, h := s.vals, h + 1 := s.nextVals], map[h - 1 := h - 1, h := h, h + 1 := h + 1],
                map[h := s.params], map[h := h]),
          h - 1, h, s)
  }

  lemma BootstrapWorldOk(s: State)
    requires IsProvided(s)
    ensures WorldOk(BootstrapWorld(s))
  {
    var w := BootstrapWorld(s);
    var h := s.lastBlockHeight + 1;
    forall x | h - 1 <= x <= h + 1 ensures ValEntryOk(w.store.vals, w.truth, x) { }
  }

  lemma ApplyBlockOk(w: World, op: Op)
    requires WorldOk(w) && op.ApplyBlock? && Possible(w, op)
    ensures Save(w.store, NextState(w.state, op)).Some? && WorldOk(Step(w, op))
  {
    var s := NextState(w.state, op);
    var next := NextHeight(w.state);
    var t' := Record(w.truth, s);
    assert NextHeight(s) == next + 1;
    assert ValEntryOk(w.store.vals, w.truth, next + 1);
    SaveValsExtends(w.store.vals, w.truth, w.lo, next + 1, s.lastHeightValsChanged, s.nextVals, t');
    SaveParamsExtends(w.store.params, w.truth, w.paramsLo, next, s.lastHeightParamsChanged, s.params, t');
    assert ParamsEntryOk(w.store.params, w.truth, next);
    hide ValsOk; hide ParamsOk; hide ValEntryOk; hide ParamsEntryOk;
  }

  /** Pruning succeeds, and leaves every height from the cut on covered. */
  lemma PruneOk(w: World, op: Op)
    requires WorldOk(w) && op.Prune? && Possible(w, op)
    ensures CanPrune(w.store, op.from, op.to) && WorldOk(Step(w, op))
  {
    var from, to, hi := op.from, op.to, NextHeight(w.state);
    var w' := Step(w, op);
    assert ValEntryOk(w.store.vals, w.truth, to) && ParamsEntryOk(w.store.params, w.truth, to);
    forall h | to <= h <= hi + 1 ensures ValEntryOk(w'.store.vals, w.truth, h) {
      PruneValsInvisible(w.store.vals, w.truth, w.lo, hi + 1, from, to, h);
    }
    forall h | to <= h <= hi ensures ParamsEntryOk(w'.store.params, w.truth, h) {
      PruneParamsInvisible(w.store.params, w.truth, w.paramsLo, hi, from, to, h);
    }
    forall h | h in KeepVals(w.store.vals, to) && from <= h < to ensures LoadValidators(w.store.vals, h).Ok? {
      LoadIsTruth(w.store.vals, w.truth, w.lo, hi + 1, h);
    }
    forall h | h in KeepParams(w.store.params, to) && from <= h < to ensures LoadParams(w.store.params, h).Ok? {
      LoadParamsIsTruth(w.store.params, w.truth, w.paramsLo, hi, h);
    }
    hide LoadValidators; hide LoadParams; hide ValEntryOk; hide ParamsEntryOk;
  }

  ghost function Run(w: World, ops: seq<Op>): World {
    if ops == [] then w else Step(Run(w, ops[..|ops| - 1]), ops[|ops| - 1])
  }

  ghost predicate AllPossible(w: World, ops: seq<Op>) {
    forall k :: 0 <= k < |ops| ==> Possible(Run(w, ops[..k]), ops[k])
  }

  lemma {:induction false} RunOk(w: World, ops: seq<Op>)
    requires WorldOk(w) && AllPossible(w, ops)
    ensures WorldOk(Run(w, ops))
  {
    hide WorldOk; hide Possible; hide Step;
    if ops != [] {
      var k := |ops| - 1;
      assert AllPossible(w, ops[..k]) by {
        forall j | 0 <= j < k ensures Possible(Run(w, ops[..k][..j]), ops[..k][j]) { assert ops[..k][..j] == ops[..j]; }
      }
      RunOk(w, ops[..k]);
      var w1 := Run(w, ops[..k]);
      assert Possible(w1, ops[k]);
      if ops[k].ApplyBlock? { ApplyBlockOk(w1, ops[k]); } else { PruneOk(w1, ops[k]); }
    }
  }

  /**
   Over any history of applied blocks and prunings, from genesis or from a
   bootstrapped state, every height from the last cut on loads what was in force
   there, and a reconstruction increments priorities 1 to 99999 times.
   */
  lemma StoreRefinesFullMap(w: World, ops: seq<Op>, h: int)
    requires (exists s :: IsGenesis(s) && w == GenesisWorld(s)) || (exists s :: IsProvided(s) && w == BootstrapWorld(s))
    requires AllPossible(w, ops)
    ensures var u := Run(w, ops);
            u.lo <= h <= NextHeight(u.state) + 1 ==>
              && h in u.truth.vals
              && LoadValidators(u.store.vals, h).Ok? && LoadValidators(u.store.vals, h).value.vals == u.truth.vals[h]
              && (u.store.vals[h].vals.None? ==>
                    1 <= LoadValidators(u.store.vals, h).value.increments <= CHECKPOINT_INTERVAL - 1)
    ensures var u := Run(w, ops);
            u.paramsLo <= h <= NextHeight(u.state) ==>
              h in u.truth.params && LoadParams(u.store.params, h) == Ok(u.truth.params[h])
  {
    hide Run; hide AllPossible; hide LoadValidators; hide LoadParams; hide ValEntryOk; hide ParamsEntryOk;
    hide GenesisWorld; hide BootstrapWorld; hide IsGenesis; hide IsProvided;
    if s :| IsGenesis(s) && w == GenesisWorld(s) {
      GenesisWorldOk(s);
    } else {
      var s :| IsProvided(s) && w == BootstrapWorld(s);
      BootstrapWorldOk(s);
    }
    RunOk(w, ops);
    var u := Run(w, ops);
    if u.lo <= h <= NextHeight(u.state) + 1 {
      LoadIsTruth(u.store.vals, u.truth, u.lo, NextHeight(u.state) + 1, h);
    }
    if u.paramsLo <= h <= NextHeight(u.state) {
      LoadParamsIsTruth(u.store.params, u.truth, u.paramsLo, NextHeight(u.state), h);
    }
  }

  /** Nothing recorded is ever rewritten: a later step keeps what was in force at every earlier height. */
  lemma TruthKept(w: World, op: Op, h: int)
    requires WorldOk(w) && Possible(w, op) && w.lo <= h <= NextHeight(w.state) + 1
    ensures h in Step(w, op).truth.vals && Step(w, op).truth.vals[h] == w.truth.vals[h]
  {
  }
}
