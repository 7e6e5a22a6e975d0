/**
 * Measurement entries over whole runs: what may write them, and that they stay STALE from the
 * release of an instrument to its next acquisition or removal.
 */
module BenchMeasurements {
  import opened Wrappers
  import opened Store
  import opened Bench
  import opened BenchFrames
  import opened BenchInvariant
  import opened BenchEvents
  import opened BenchSafety
  import StoreHistory
  import Text

  // ---------------------------------------------------------------- what is registered

  /** Only IADD and IREMOVE change what is registered. */
  lemma RegistryFrame(st: State, step: Step)
    ensures !step.AddInstrument? && !step.RemoveInstrument? ==> Apply(st, step).registry == st.registry
  {
    hide Apply;
    Frame(st, step);
  }

  /** IREMOVE of `n` gets through to the registry. */
  predicate Removes(st: State, step: Step, n: Name) {
    step == RemoveInstrument(n) && st.command.None?
  }

  ghost predicate RemovesAt(run: seq<Step>, x: int, n: Name) {
    0 <= x < |run| && Removes(At(run, x), StepAt(run, x), n)
  }

  predicate Adds(step: Step, n: Name) {
    step.AddInstrument? && step.name == n
  }

  /** Name `n` stands for instrument `o`. */
  predicate Names(st: State, n: Name, o: ObjId) {
    n in st.registry && st.registry[n] == o
  }

  lemma OwnershipNames(st: State, step: Step, n: Name, o: ObjId)
    ensures IsOwnership(step) && Names(st, n, o) && !Removes(st, step, n) ==> Names(ApplyOwnership(st, step), n, o)
    ensures IsOwnership(step) && Names(ApplyOwnership(st, step), n, o) ==>
              Names(st, n, o) || (o == st.nextObj && Adds(step, n))
  {
    hide ApplyLock, ApplyBeginUnlock, ApplyUnlockNext, ApplyUnlockRaises, TasksAt;
  }

  /** A name keeps its instrument unless it is removed, and gets none but a new one. */
  lemma NameKept(st: State, step: Step, n: Name, o: ObjId)
    ensures Names(st, n, o) && !Removes(st, step, n) ==> Names(Apply(st, step), n, o)
    ensures Names(Apply(st, step), n, o) ==>
              Names(st, n, o) || (o == st.nextObj && Adds(step, n))
  {
    hide Apply, ApplyOwnership;
    if IsOwnership(step) {
      OwnershipIs(st, step);
      OwnershipNames(st, step, n, o);
    } else {
      RegistryFrame(st, step);
    }
  }

  // ---------------------------------------------------------------- names that do not interfere

  /** The name of every other registered instrument is apart from `n`. */
  predicate Clear(registry: map<Name, ObjId>, n: Name) {
    forall m :: m in registry && m != n ==> StoreHistory.Apart(n, m)
  }

  predicate AddsClear(step: Step, n: Name) {
    step.AddInstrument? && step.name != n ==> StoreHistory.Apart(n, step.name)
  }

  /** Every other instrument is added under a name that is apart from `n`. */
  predicate ClearRun(run: seq<Step>, n: Name) {
    forall x :: 0 <= x < |run| ==> AddsClear(run[x], n)
  }

  lemma ClearStep(st: State, step: Step, n: Name)
    requires AddsClear(step, n)
    ensures Clear(st.registry, n) ==> Clear(Apply(st, step).registry, n)
  {
    hide Apply, StoreHistory.Apart, Removes;
    forall m, o | Names(Apply(st, step), m, o) ensures m in st.registry || Adds(step, m) {
      NameKept(st, step, m, o);
    }
    assert forall m :: m in Apply(st, step).registry ==> Names(Apply(st, step), m, Apply(st, step).registry[m]);
  }

  lemma {:induction false} ClearReachable(run: seq<Step>, i: int, n: Name)
    requires ClearRun(run, n)
    ensures Clear(At(run, i).registry, n)
    decreases i
  {
    hide Apply, Clear, StoreHistory.Apart;
    if i <= 0 {
      NothingNamed(n);
    } else {
      ClearReachable(run, i - 1, n);
      if i <= |run| {
        ClearStep(At(run, i - 1), run[i - 1], n);
      }
    }
  }

  lemma NothingNamed(n: Name)
    ensures Clear(INIT.registry, n)
  {
  }

  // ---------------------------------------------------------------- writers

  /** The entries under `prefix` are the same, but some may have become STALE. */
  ghost predicate OnlyStale(a: map<string, Meas>, b: map<string, Meas>, prefix: string) {
    forall k :: prefix <= k ==>
      && (k in a <==> k in b)
      && (k in a ==> b[k] == a[k] || b[k] == a[k].(status := STALE))
  }

  lemma WriteKeeps(meas: map<string, Meas>, n: Name, m: Name, r: string, value: Option<string>, status: string)
    requires StoreHistory.Apart(n, m)
    ensures OnlyStale(meas, WriteMeasSpec(meas, m, r, value, status), MeasPrefix(n))
  {
    StoreHistory.ApartKey(n, m, r);
    hide MeasPrefix, MeasKey;
  }

  lemma InvalidateKeeps(meas: map<string, Meas>, m: Name, prefix: string)
    ensures OnlyStale(meas, InvalidateSpec(meas, m), prefix) && OnlyStale(meas, meas, prefix)
  {
    hide MeasPrefix;
  }

  lemma NoteKeeps(meas: map<string, Meas>, n: Name, mark: Option<(Name, string)>, value: Option<string>, status: string)
    requires mark.Some? ==> StoreHistory.Apart(n, mark.value.0)
    ensures OnlyStale(meas, NoteMark(meas, mark, value, status), MeasPrefix(n))
  {
    hide MeasPrefix, WriteMeasSpec, OnlyStale, InvalidateSpec;
    InvalidateKeeps(meas, n, MeasPrefix(n));
    if mark.Some? {
      WriteKeeps(meas, n, mark.value.0, mark.value.1, value, status);
    }
  }

  /** Nobody owns instrument `n`. */
  ghost predicate Free(st: State, n: Name) {
    n in st.registry && !IsOwned(st.objs, st.registry, n)
  }

  lemma UseStartKeeps(st: State, index: nat, n: Name)
    requires CommandOk(st) && ':' !in n
    ensures OnlyStale(st.meas, ApplyUseStart(st, index).meas, MeasPrefix(n)) || !Free(st, n)
  {
    hide OnlyStale, NoteMark, RemoveAt, ErrorStatus, NotReadyText, MeasPrefix, StoreHistory.Apart, InvalidateSpec,
      CommandOk;
    InvalidateKeeps(st.meas, n, MeasPrefix(n));
    if Free(st, n) && st.command.Some? && st.command.value.Using? && index < |st.command.value.pending|
       && st.command.value.pending[index] in st.objs {
      MarkApart(st, n);
      NoteKeeps(st.meas, n, st.command.value.mark, None,
                ErrorStatus(NotReadyText(st.objs[st.command.value.pending[index]])));
    }
  }

  lemma UseReturnKeeps(st: State, index: nat, outcome: Outcome, n: Name)
    requires CommandOk(st) && ':' !in n
    ensures OnlyStale(st.meas, ApplyUseReturn(st, index, outcome).meas, MeasPrefix(n)) || !Free(st, n)
  {
    hide OnlyStale, NoteMark, RemoveAt, AfterUse, UseValue, UseStatus, MeasPrefix, StoreHistory.Apart, InvalidateSpec,
      CommandOk;
    InvalidateKeeps(st.meas, n, MeasPrefix(n));
    if Free(st, n) && st.command.Some? && st.command.value.Using? {
      MarkApart(st, n);
      NoteKeeps(st.meas, n, st.command.value.mark, UseValue(outcome), UseStatus(outcome));
    }
  }

  /** A use in flight notes another, owned, instrument. */
  lemma MarkApart(st: State, n: Name)
    requires CommandOk(st) && Free(st, n) && ':' !in n && st.command.Some? && st.command.value.Using?
    ensures st.command.value.mark.Some? ==> StoreHistory.Apart(n, st.command.value.mark.value.0)
  {
    hide StoreHistory.Apart;
    UseHolds(st);
    if st.command.value.mark.Some? {
      StoreHistory.ColonFreeApart(n, st.command.value.mark.value.0);
    }
  }

  lemma ReadKeeps(st: State, s: Session, args: seq<string>, marked: bool, n: Name)
    requires ':' !in n
    ensures OnlyStale(st.meas, ApplyBeginRead(st, s, args, marked).meas, MeasPrefix(n)) || !Free(st, n)
  {
    hide OnlyStale, MeasPrefix, WriteMeasSpec, ErrorStatus, NotFoundText, StoreHistory.Apart, ReadTarget,
      InvalidateSpec;
    InvalidateKeeps(st.meas, n, MeasPrefix(n));
    var target := ReadTarget(args);
    if Free(st, n) && target.Some? && target.value.0 !in st.registry {
      StoreHistory.ColonFreeApart(n, target.value.0);
      WriteKeeps(st.meas, n, target.value.0, target.value.1, None, ErrorStatus(NotFoundText(target.value.0)));
    }
  }

  lemma UseKeeps(st: State, step: Step, n: Name)
    requires CommandOk(st) && Free(st, n) && ':' !in n && IsUse(step)
    ensures OnlyStale(st.meas, ApplyUse(st, step).meas, MeasPrefix(n))
  {
    hide OnlyStale, MeasPrefix, InvalidateSpec, CommandOk, Free, ApplyBeginUse, ApplyBeginRead, ApplyUseStart,
      ApplyUseReturn, ApplyUseDone;
    InvalidateKeeps(st.meas, n, MeasPrefix(n));
    if step.BeginRead? {
      ReadKeeps(st, step.session, step.args, step.marked, n);
    } else if step.UseStart? {
      UseStartKeeps(st, step.index, n);
    } else if step.UseReturn? {
      UseReturnKeeps(st, step.index, step.outcome, n);
    }
  }

  lemma GuardKeeps(st: State, t: TaskId, outcome: Outcome, number: Option<real>, n: Name)
    requires TablesOk(st) && Clear(st.registry, n) && Free(st, n)
    ensures OnlyStale(st.meas, ApplyGuardReturn(st, t, outcome, number).meas, MeasPrefix(n))
    ensures OnlyStale(st.meas, ApplyGuardTrip(st, t).meas, MeasPrefix(n))
  {
    hide TablesOk, OnlyStale, MeasPrefix, WriteMeasSpec, WithPhase, WithStatus, AfterFailure, Violates, NotePhase,
      TripPhase, StoreHistory.Apart, InvalidateSpec;
    InvalidateKeeps(st.meas, n, MeasPrefix(n));
    if t in st.guards {
      var g := st.guards[t];
      GuardOwned(st, t);
      WriteKeeps(st.meas, n, g.name, g.resource, if outcome.Returned? then Some(outcome.text) else None,
        if outcome.Returned? then "OK" else "ERROR");
      if g.phase.Tripping? {
        WriteKeeps(st.meas, n, g.name, g.resource, Some(g.phase.text), "GUARD_FAULT");
      }
    }
  }

  lemma BackgroundKeeps(st: State, step: Step, n: Name)
    requires TablesOk(st) && Clear(st.registry, n) && Free(st, n) && IsBackground(step)
    ensures OnlyStale(st.meas, ApplyBackground(st, step).meas, MeasPrefix(n))
  {
    hide TablesOk, OnlyStale, MeasPrefix, Clear, Free, InvalidateSpec, ApplyGuardTick, ApplyGuardReturn, ApplyGuardTrip,
      ApplyGuardPublish, ApplyHealthTick, ApplyHealthReturn, ApplyHealthPublish;
    InvalidateKeeps(st.meas, n, MeasPrefix(n));
    if step.GuardReturn? {
      GuardKeeps(st, step.task, step.outcome, step.number, n);
    } else if step.GuardTrip? {
      GuardKeeps(st, step.task, TimedOut, None, n);
    }
  }

  /** A release only marks entries STALE, under any prefix. */
  lemma TurnKeeps(st: State, n: Name, s: Session, safe: bool, prefix: string)
    ensures OnlyStale(st.meas, ReleaseOwned(st, n, s, safe).meas, prefix)
  {
    hide OnlyStale, InvalidateSpec, TasksAt, OwnedBy;
    InvalidateKeeps(st.meas, n, prefix);
  }

  lemma UnlockKeeps(st: State, safe: bool, prefix: string)
    ensures OnlyStale(st.meas, ApplyUnlockNext(st, safe).meas, prefix)
  {
    hide OnlyStale, InvalidateSpec, ReleaseOwned, StopGuards, OwnedBy;
    InvalidateKeeps(st.meas, "", prefix);
    if st.command.Some? && st.command.value.Unlocking? && st.command.value.names != [] {
      TurnKeeps(st, st.command.value.names[0], st.command.value.session, safe, prefix);
    }
  }

  lemma OwnershipKeeps(st: State, step: Step, prefix: string)
    ensures OnlyStale(st.meas, ApplyOwnership(st, step).meas, prefix)
  {
    hide OnlyStale, InvalidateSpec, ApplyAdd, ApplyRemove, ApplyLock, ApplyBeginUnlock, ApplyUnlockNext,
      ApplyUnlockRaises;
    InvalidateKeeps(st.meas, "", prefix);
    if step.UnlockNext? {
      UnlockKeeps(st, step.safe, prefix);
    }
  }

  lemma CloseKeeps(st: State, s: Session, safe: bool, prefix: string)
    ensures OnlyStale(st.meas, ApplyCloseNext(st, s, safe).meas, prefix)
  {
    hide OnlyStale, InvalidateSpec, ReleaseOwned;
    InvalidateKeeps(st.meas, "", prefix);
    if s in st.closing && st.closing[s].Releasing? && st.closing[s].names != [] {
      TurnKeeps(st, st.closing[s].names[0], s, safe, prefix);
    }
  }

  lemma ClosingKeeps(st: State, step: Step, prefix: string)
    ensures OnlyStale(st.meas, ApplyClosing(st, step).meas, prefix)
  {
    hide OnlyStale, InvalidateSpec, ApplyStartClose, ApplyCloseNext, ApplyCloseKeys, ApplyFinishClose;
    InvalidateKeeps(st.meas, "", prefix);
    if step.CloseNext? {
      CloseKeeps(st, step.session, step.safe, prefix);
    }
  }

  lemma UnwatchKeeps(st: State, s: Session, n: Name, r: string, prefix: string)
    ensures OnlyStale(st.meas, ApplyUnwatch(st, s, n, r).meas, prefix)
    ensures OnlyStale(st.meas, ApplyUnwatchAll(st, s).meas, prefix)
  {
    hide MeasKey, MeasPrefix, StopGuard, OwnedBy;
  }

  lemma WatchingKeeps(st: State, step: Step, prefix: string)
    ensures OnlyStale(st.meas, ApplyWatching(st, step).meas, prefix)
  {
    hide OnlyStale, InvalidateSpec, TasksAt, ApplyWatch, ApplyUnwatch, ApplyUnwatchAll;
    InvalidateKeeps(st.meas, if step.UnwatchInstrument? then step.name else "", prefix);
    if step.Unwatch? {
      UnwatchKeeps(st, step.session, step.name, step.resource, prefix);
    } else if step.UnwatchAll? {
      UnwatchKeeps(st, step.session, "", "", prefix);
    }
  }

  /** While nobody owns an instrument, no step does more to its entries than mark them STALE. */
  lemma FreeEntriesKept(st: State, step: Step, n: Name)
    requires Inv(st) && Clear(st.registry, n) && Free(st, n) && ':' !in n
    ensures OnlyStale(st.meas, Apply(st, step).meas, MeasPrefix(n))
  {
    hide OnlyStale, Apply, OkObjects, OkRegistry, TablesOk, OkHealth, CommandOk, OkSessions, OkKeys, OkSubs, MeasPrefix,
      Clear, Free, InvalidateSpec, ApplyUse, ApplyBackground, ApplyOwnership, ApplyWatching, ApplyClosing;
    if IsUse(step) {
      UseIs(st, step);
      UseKeeps(st, step, n);
    } else if IsBackground(step) {
      BackgroundIs(st, step);
      BackgroundKeeps(st, step, n);
    } else if IsOwnership(step) {
      OwnershipIs(st, step);
      OwnershipKeeps(st, step, MeasPrefix(n));
    } else if IsWatching(step) {
      WatchingIs(st, step);
      WatchingKeeps(st, step, MeasPrefix(n));
    } else if IsClosing(step) {
      ClosingIs(st, step);
      ClosingKeeps(st, step, MeasPrefix(n));
    } else {
      Frame(st, step);
      InvalidateKeeps(st.meas, n, MeasPrefix(n));
    }
  }

  /**
   * A name with a colon is exposed: any session can write an entry of it by an IREAD with the MEAS
   * flag that names the unknown instrument before the colon.
   */
  lemma ColonNameExposed(st: State, s: Session, n: Name, c: nat, r: string)
    requires CanStart(st, s) && c < |n| && n[c] == ':' && ':' !in n[..c] && n[..c] !in st.registry
    ensures ApplyBeginRead(st, s, [n[..c], n[c + 1..] + ":" + r], true).meas
            == st.meas[MeasKey(n, r) := Meas(None, ErrorStatus(NotFoundText(n[..c])))]
  {
    hide ErrorStatus, NotFoundText;
    var args := [n[..c], n[c + 1..] + ":" + r];
    assert Text.FindColon(args[0], 0) == |args[0]|;
    assert n == n[..c] + ":" + n[c + 1..];
    assert MeasKey(n[..c], n[c + 1..] + ":" + r) == MeasKey(n, r);
  }

  // ---------------------------------------------------------------- the release

  lemma TurnMeas(st: State, n: Name, s: Session, safe: bool)
    ensures OwnedBy(st, n, s) ==> n in st.registry && ReleaseOwned(st, n, s, safe).meas == InvalidateSpec(st.meas, n)
  {
    hide InvalidateSpec, TasksAt;
  }

  /** The release marks the entries of its own instrument STALE and changes no other entry. */
  lemma ReleaseMeas(st: State, step: Step, n: Name, s: Session)
    ensures ReleaseTarget(st, step) == Some((n, s)) && OwnedBy(st, n, s) ==>
              Apply(st, step).meas == InvalidateSpec(st.meas, n)
  {
    hide Apply, InvalidateSpec, ReleaseOwned, StopGuards, OwnedBy, ApplyAdd, ApplyRemove, ApplyLock, ApplyBeginUnlock,
      ApplyUnlockRaises, ApplyStartClose, ApplyCloseKeys, ApplyFinishClose;
    if step.UnlockNext? {
      OwnershipIs(st, step);
      TurnMeas(st, n, s, step.safe);
    } else if step.CloseNext? {
      ClosingIs(st, step);
      TurnMeas(st, n, s, step.safe);
    }
  }

  lemma ReleaseMeasAt(run: seq<Step>, i: int, n: Name, o: ObjId, s: Session, safe: bool)
    requires ReleasesAt(run, i, o, s, safe) && Names(At(run, i), n, o)
    ensures At(run, i + 1).meas == InvalidateSpec(At(run, i).meas, n)
  {
    hide At, Apply, InvalidateSpec, OkObjects, TablesOk, OkHealth, CommandOk, OkSessions, OkKeys, OkSubs;
    ReachableInv(run, i);
    AtStep(run, i);
    ReleaseMeas(At(run, i), StepAt(run, i), n, s);
  }

  // ---------------------------------------------------------------- staleness

  /** Instrument `o`, registered as `n`, belongs to nobody. */
  predicate Unowned(st: State, n: Name, o: ObjId) {
    Names(st, n, o) && HasOwner(st, o, None)
  }

  /** Released and neither taken nor removed since. */
  lemma {:induction false} FreeBetween(run: seq<Step>, i: int, j: int, n: Name, o: ObjId)
    requires 0 <= i <= j && Unowned(At(run, i), n, o)
    requires forall x :: i <= x < j ==> !RemovesAt(run, x, n)
    requires forall x, t :: i <= x < j ==> !LocksAt(run, x, o, t)
    ensures Unowned(At(run, j), n, o)
    decreases j - i
  {
    hide At, Apply, LocksAt, ReleasesAt, Removes;
    if i < j {
      FreeBetween(run, i, j - 1, n, o);
      assert !RemovesAt(run, j - 1, n);
      NameKept(At(run, j - 1), StepAt(run, j - 1), n, o);
      AtStep(run, j - 1);
      StaysUnowned(run, j - 1, o);
    }
  }

  lemma StaysUnowned(run: seq<Step>, i: int, o: ObjId)
    requires 0 <= i && HasOwner(At(run, i), o, None) && forall t :: !LocksAt(run, i, o, t)
    ensures HasOwner(At(run, i + 1), o, None)
  {
    hide At, LocksAt, ReleasesAt, CompletesAt, ResetsAt, ChangeAt;
    EffectAt(run, i, o);
  }

  lemma {:induction false} EntriesKept(run: seq<Step>, i: int, j: int, n: Name, o: ObjId)
    requires 0 <= i <= j && ClearRun(run, n) && ':' !in n && Unowned(At(run, i), n, o)
    requires forall x :: i <= x < j ==> !RemovesAt(run, x, n)
    requires forall x, t :: i <= x < j ==> !LocksAt(run, x, o, t)
    ensures OnlyStale(At(run, i).meas, At(run, j).meas, MeasPrefix(n))
    decreases j - i
  {
    hide At, Apply, LocksAt, RemovesAt, Inv, Clear, ClearRun, MeasPrefix;
    if i < j {
      EntriesKept(run, i, j - 1, n, o);
      FreeBetween(run, i, j - 1, n, o);
      ReachableInv(run, j - 1);
      ClearReachable(run, j - 1, n);
      AtStep(run, j - 1);
      if j <= |run| {
        FreeEntriesKept(At(run, j - 1), StepAt(run, j - 1), n);
      }
    }
  }

  /** The entries under `prefix` are in `b` the ones of `a` with their values, and STALE. */
  ghost predicate AllStale(a: map<string, Meas>, b: map<string, Meas>, prefix: string) {
    forall k :: prefix <= k ==> (k in b <==> k in a) && (k in b ==> b[k] == Meas(a[k].value, "STALE"))
  }

  lemma InvalidateAllStale(a: map<string, Meas>, b: map<string, Meas>, n: Name)
    requires OnlyStale(InvalidateSpec(a, n), b, MeasPrefix(n))
    ensures AllStale(a, b, MeasPrefix(n))
  {
    hide MeasPrefix;
  }

  /**
   * From the release of an instrument, by IUNLOCK or by disconnecting and with or without a
   * working safe_state, to its next ILOCK or its IREMOVE: the entries of the instrument are the
   * ones it had, with the values they had, and all of them are STALE.
   */
  lemma StaleUntilLocked(run: seq<Step>, i: int, j: int, n: Name, o: ObjId, s: Session, safe: bool)
    requires i < j && ':' !in n && ClearRun(run, n)
    requires ReleasesAt(run, i, o, s, safe) && Names(At(run, i), n, o)
    requires forall x :: i < x < j ==> !RemovesAt(run, x, n)
    requires forall x, t :: i < x < j ==> !LocksAt(run, x, o, t)
    ensures AllStale(At(run, i).meas, At(run, j).meas, MeasPrefix(n))
  {
    hide At, Apply, LocksAt, RemovesAt, ClearRun, MeasPrefix, OnlyStale, InvalidateSpec, ChangeAt, ReleasesAt;
    ReleaseMeasAt(run, i, n, o, s, safe);
    ReleasedUnowned(run, i, n, o, s, safe);
    EntriesKept(run, i + 1, j, n, o);
    InvalidateAllStale(At(run, i).meas, At(run, j).meas, n);
  }

  lemma ReleasedUnowned(run: seq<Step>, i: int, n: Name, o: ObjId, s: Session, safe: bool)
    requires ReleasesAt(run, i, o, s, safe) && Names(At(run, i), n, o)
    ensures 0 <= i && Unowned(At(run, i + 1), n, o)
  {
    hide At, Apply, ChangeAt, Caused, OwnedBy, ReleaseTarget;
    assert 0 <= i && StepAt(run, i) != RemoveInstrument(n) by {
      ReleasingStep(run, i, o, s, safe);
    }
    NameKept(At(run, i), StepAt(run, i), n, o);
    AtStep(run, i);
    ReleaseIs(run, i, o, s, safe);
    ReleasedObject(run, i, o, s, safe);
    EffectAt(run, i, o);
  }

  lemma ReleasingStep(run: seq<Step>, i: int, o: ObjId, s: Session, safe: bool)
    requires ReleasesAt(run, i, o, s, safe)
    ensures 0 <= i < |run| && (StepAt(run, i).UnlockNext? || StepAt(run, i).CloseNext?)
  {
    hide At;
  }

  lemma ReleasedObject(run: seq<Step>, i: int, o: ObjId, s: Session, safe: bool)
    requires ReleasesAt(run, i, o, s, safe)
    ensures o in At(run, i).objs
  {
    hide At, ReleaseTarget;
  }

  /** The release changes no entry of an instrument whose name is apart. */
  lemma ReleaseIsolated(run: seq<Step>, i: int, n: Name, o: ObjId, s: Session, safe: bool, m: Name, r: string)
    requires ReleasesAt(run, i, o, s, safe) && Names(At(run, i), n, o) && StoreHistory.Apart(n, m)
    ensures SameEntry(At(run, i).meas, At(run, i + 1).meas, MeasKey(m, r))
  {
    hide At, ReleasesAt, MeasPrefix, MeasKey, StoreHistory.Apart;
    ReleaseMeasAt(run, i, n, o, s, safe);
    StoreHistory.ApartKey(n, m, r);
  }

  predicate SameEntry(a: map<string, Meas>, b: map<string, Meas>, k: string) {
    (k in b <==> k in a) && (k in a ==> b[k] == a[k])
  }

  /** Otherwise the release reaches some key of the other name and makes what is stored there STALE. */
  lemma ReleaseReaches(run: seq<Step>, i: int, n: Name, o: ObjId, s: Session, safe: bool, m: Name) returns (r: string)
    requires ReleasesAt(run, i, o, s, safe) && Names(At(run, i), n, o) && !StoreHistory.Apart(n, m)
    ensures MeasPrefix(n) <= MeasKey(m, r) && AllStale(At(run, i).meas, At(run, i + 1).meas, MeasPrefix(n))
  {
    hide At, ReleasesAt, MeasPrefix, MeasKey, StoreHistory.Apart, InvalidateSpec, OnlyStale, AllStale;
    ReleaseMeasAt(run, i, n, o, s, safe);
    StoreHistory.PrefixesApartIff(n, m);
    r :| MeasPrefix(n) <= MeasKey(m, r);
    InvalidateKeeps(At(run, i + 1).meas, "", MeasPrefix(n));
    InvalidateAllStale(At(run, i).meas, At(run, i + 1).meas, n);
  }
}
