/**
 * Which step starts a driver call or a guard, on which instrument, and under exactly which conditions;
 * and what a step does to the names, the health tasks and the subscriptions.
 */
module BenchCalls {
  import opened Wrappers
  import opened Store
  import opened Bench
  import opened BenchFrames
  import opened BenchInvariant
  import opened BenchEvents
  import opened BenchSafety
  import opened BenchGuards
  import opened BenchMeasurements
  import Events

  // ---------------------------------------------------------------- calls of the command

  /** IINIT, IALIGN or IPING calls `o`. */
  predicate CommandCalls(st: State, o: ObjId) {
    Called(st) == Some(o)
  }

  /** The command starts its call: IINIT on LOCKED or READY, IALIGN on LOCKED, IPING on whatever is not broken. */
  ghost predicate BeginsCall(st: State, step: Step, o: ObjId) {
    match step
    case BeginInit(s, n, _) =>
      CanStart(st, s) && Names(st, n, o) && (HasStatus(st, o, Locked) || HasStatus(st, o, Ready))
    case AlignNext =>
      st.command.Some? && st.command.value.Aligning? && st.command.value.current.None? && st.command.value.names != []
      && Names(st, st.command.value.names[0], o) && HasStatus(st, o, Locked)
    case BeginPing(s, n) => CanStart(st, s) && Names(st, n, o) && o in st.objs && !InFault(st, o)
    case _ => false
  }

  lemma BeginCalls(st: State, step: Step, o: ObjId)
    requires step.BeginInit? || step.AlignNext? || step.BeginPing?
    ensures CommandCalls(ApplyLifecycle(st, step), o) && !CommandCalls(st, o) <==> BeginsCall(st, step, o)
  {
    hide ApplyInitReturn, ApplyBeginAlign, ApplyAlignReturn, ApplyReset, ApplyPingReturn;
  }

  lemma ReturnCalls(st: State, step: Step, o: ObjId)
    requires IsLifecycle(step) && !step.BeginInit? && !step.AlignNext? && !step.BeginPing?
    ensures CommandCalls(ApplyLifecycle(st, step), o) ==> CommandCalls(st, o)
  {
    hide AfterFailure, MarkReady, AfterInitCall, ApplyReset, ApplyBeginInit, ApplyAlignNext, ApplyBeginPing;
  }

  lemma LifecycleCalls(st: State, step: Step, o: ObjId)
    requires IsLifecycle(step)
    ensures CommandCalls(ApplyLifecycle(st, step), o) && !CommandCalls(st, o) <==> BeginsCall(st, step, o)
  {
    hide ApplyLifecycle, CommandCalls, CanStart, Names, HasStatus;
    if step.BeginInit? || step.AlignNext? || step.BeginPing? {
      BeginCalls(st, step, o);
    } else {
      ReturnCalls(st, step, o);
    }
  }

  lemma UseCalls(st: State, step: Step, o: ObjId)
    ensures IsUse(step) && CommandCalls(ApplyUse(st, step), o) ==> CommandCalls(st, o)
  {
    hide ReadTarget, WriteMeasSpec, NoteMark, RemoveAt, AfterUse, OwnedBy, ErrorStatus, NotFoundText, NotReadyText,
      ObjectsOf, UseValue, UseStatus;
  }

  lemma OwnershipCalls(st: State, step: Step, o: ObjId)
    ensures IsOwnership(step) && CommandCalls(ApplyOwnership(st, step), o) ==> CommandCalls(st, o)
  {
    hide ReleaseOwned, StopGuards, OwnedBy, Listing, ApplyAdd, ApplyRemove, ApplyLock;
  }

  lemma ClosingCalls(st: State, step: Step, o: ObjId)
    ensures IsClosing(step) && CommandCalls(ApplyClosing(st, step), o) ==> CommandCalls(st, o)
  {
    hide Listing, ApplyCloseNext, ApplyCloseKeys, ApplyFinishClose;
  }

  /** A call of a command is new exactly after a step that starts one under its conditions. */
  lemma CommandCallIff(st: State, step: Step, o: ObjId)
    ensures CommandCalls(Apply(st, step), o) && !CommandCalls(st, o) <==> BeginsCall(st, step, o)
  {
    hide Apply, BeginsCall, ApplyLifecycle, ApplyUse, ApplyOwnership, ApplyClosing;
    NoCallBegins(st, step, o);
    if IsLifecycle(step) {
      LifecycleIs(st, step);
      LifecycleCalls(st, step, o);
    } else if IsUse(step) {
      UseIs(st, step);
      UseCalls(st, step, o);
    } else if IsOwnership(step) {
      OwnershipIs(st, step);
      OwnershipCalls(st, step, o);
    } else if IsClosing(step) {
      ClosingIs(st, step);
      ClosingCalls(st, step, o);
    } else {
      Frame(st, step);
    }
  }

  lemma NoCallBegins(st: State, step: Step, o: ObjId)
    ensures BeginsCall(st, step, o) ==> IsLifecycle(step) && !InFault(st, o)
  {
  }

  /**
   * IINIT makes two driver calls, three with a configuration: as long as one is left the instrument stays as
   * it is, and with the last it is READY with the resources that this call found.
   */
  lemma InitTakesCalls(st: State, s: Session, n: Name, o: ObjId, configured: bool, text: string, early: seq<string>,
          found: seq<string>)
    requires CanStart(st, s) && Names(st, n, o) && (HasStatus(st, o, Locked) || HasStatus(st, o, Ready))
    ensures var a := ApplyBeginInit(st, s, n, configured);
            var b := ApplyInitReturn(a, Returned(text), early);
            var c := ApplyInitReturn(b, Returned(text), if configured then early else found);
            var d := ApplyInitReturn(c, Returned(text), found);
            && a.objs == st.objs && b.objs == st.objs && (configured ==> c.objs == st.objs)
            && (if configured then d else c)
               == st.(objs := st.objs[o := st.objs[o].(status := Ready, resources := found)])
  {
  }

  // ---------------------------------------------------------------- owners' calls

  /** The owner's calls that are running. */
  function Running(st: State): seq<ObjId> {
    if st.command.Some? && st.command.value.Using? then st.command.value.running else []
  }

  lemma UseRuns(st: State, step: Step, o: ObjId)
    ensures IsUse(step) ==>
              (multiset(Running(ApplyUse(st, step)))[o] > multiset(Running(st))[o] <==>
                 step.UseStart? && exists s :: Uses(st, step, o, s))
  {
    hide ApplyBeginUse, ApplyBeginRead, ApplyUseStart, ApplyUseReturn, ApplyUseDone, Uses;
    if step.BeginUse? || step.BeginRead? || step.UseDone? {
      NothingRuns(st, step);
    } else if step.UseStart? {
      StartRuns(st, step.index, o);
    } else if step.UseReturn? {
      ReturnRuns(st, step.index, step.outcome, o);
    }
  }

  lemma NothingRuns(st: State, step: Step)
    requires step.BeginUse? || step.BeginRead? || step.UseDone?
    ensures Running(ApplyUse(st, step)) == Running(st)
  {
    hide ReadTarget, WriteMeasSpec, OwnedBy, ErrorStatus, NotFoundText, ObjectsOf, ApplyUseStart, ApplyUseReturn;
  }

  lemma StartRunning(st: State, index: nat)
    ensures Running(ApplyUseStart(st, index)) ==
              if st.command.Some? && st.command.value.Using? && index < |st.command.value.pending|
                 && HasStatus(st, st.command.value.pending[index], Ready)
              then Running(st) + [st.command.value.pending[index]] else Running(st)
  {
    hide NoteMark, ErrorStatus, NotReadyText, RemoveAt;
  }

  lemma UsesIs(st: State, index: nat, o: ObjId)
    requires st.command.Some? && st.command.value.Using? && index < |st.command.value.pending|
    ensures (exists s :: Uses(st, UseStart(index), o, s)) <==>
              st.command.value.pending[index] == o && HasStatus(st, o, Ready)
  {
    assert Uses(st, UseStart(index), o, st.command.value.session) <==>
      st.command.value.pending[index] == o && HasStatus(st, o, Ready);
  }

  lemma NoUses(st: State, index: nat, o: ObjId)
    requires !(st.command.Some? && st.command.value.Using? && index < |st.command.value.pending|)
    ensures forall s :: !Uses(st, UseStart(index), o, s)
  {
  }

  lemma OneMore(s: seq<ObjId>, x: ObjId, o: ObjId)
    ensures multiset(s + [x])[o] == multiset(s)[o] + if x == o then 1 else 0
  {
  }

  lemma StartRuns(st: State, index: nat, o: ObjId)
    ensures multiset(Running(ApplyUseStart(st, index)))[o] > multiset(Running(st))[o] <==>
              exists s :: Uses(st, UseStart(index), o, s)
  {
    hide NoteMark, ErrorStatus, NotReadyText, RemoveAt, Uses, Running;
    StartRunning(st, index);
    if st.command.Some? && st.command.value.Using? && index < |st.command.value.pending| {
      UsesIs(st, index, o);
      OneMore(Running(st), st.command.value.pending[index], o);
    } else {
      NoUses(st, index, o);
    }
  }

  lemma ReturnRuns(st: State, index: nat, outcome: Outcome, o: ObjId)
    ensures multiset(Running(ApplyUseReturn(st, index, outcome)))[o] <= multiset(Running(st))[o]
  {
    hide NoteMark, AfterUse, UseValue, UseStatus;
    if st.command.Some? && st.command.value.Using? && index < |st.command.value.running| {
      var s := st.command.value.running;
      assert s == s[..index] + [s[index]] + s[index + 1..];
    }
  }

  lemma OthersRun(st: State, step: Step)
    ensures !IsUse(step) ==> Running(Apply(st, step)) in {Running(st), []}
  {
    hide Apply, ApplyLifecycle, ApplyOwnership, ApplyClosing;
    Frame(st, step);
    if IsLifecycle(step) {
      LifecycleIs(st, step);
      LifecycleRuns(st, step);
    } else if IsOwnership(step) {
      OwnershipIs(st, step);
      OwnershipRuns(st, step);
    } else if IsClosing(step) {
      ClosingIs(st, step);
      ClosingRuns(st, step);
    }
  }

  lemma LifecycleRuns(st: State, step: Step)
    ensures Running(ApplyLifecycle(st, step)) in {Running(st), []}
  {
    hide AfterFailure, MarkReady, AfterInitCall;
  }

  lemma OwnershipRuns(st: State, step: Step)
    ensures Running(ApplyOwnership(st, step)) in {Running(st), []}
  {
    hide ReleaseOwned, StopGuards, OwnedBy, Listing, ApplyAdd, ApplyRemove, ApplyLock;
  }

  lemma ClosingRuns(st: State, step: Step)
    ensures Running(ApplyClosing(st, step)) in {Running(st), []}
  {
    hide Listing, ApplyCloseNext, ApplyCloseKeys, ApplyFinishClose;
  }

  /** A call of an owner is new exactly after `UseStart` on a READY instrument that the command was admitted to. */
  lemma UseCallIff(st: State, step: Step, o: ObjId)
    ensures multiset(Running(Apply(st, step)))[o] > multiset(Running(st))[o] <==>
              step.UseStart? && exists s :: Uses(st, step, o, s)
  {
    hide Apply, ApplyUse, Uses, Running;
    if IsUse(step) {
      UseIs(st, step);
      UseRuns(st, step, o);
    } else {
      OthersRun(st, step);
    }
  }

  // ---------------------------------------------------------------- calls of guards and health tasks

  predicate GuardCalls(st: State, t: TaskId, o: ObjId) {
    t in st.guards && st.guards[t].phase.Reading? && st.guards[t].obj == o
  }

  predicate HealthCalls(st: State, n: Name, o: ObjId) {
    n in st.health && st.health[n].phase.Asking? && st.health[n].obj == o
  }

  /** Guard `t` is asleep on the READY instrument `o`. */
  predicate Wakes(st: State, t: TaskId, o: ObjId) {
    t in st.guards && st.guards[t].phase.Sleeping? && st.guards[t].obj == o && HasStatus(st, o, Ready)
  }

  /** The health task of `n` waits, and its instrument `o` is not broken. */
  ghost predicate Asks(st: State, n: Name, o: ObjId) {
    n in st.health && st.health[n].phase.Waiting? && st.health[n].obj == o && o in st.objs && !InFault(st, o)
  }

  lemma GuardPhases(st: State, step: Step, t: TaskId, o: ObjId)
    requires IsBackground(step)
    ensures GuardCalls(ApplyBackground(st, step), t, o) && !GuardCalls(st, t, o) <==>
              step == GuardTick(t) && Wakes(st, t, o)
  {
    hide WriteMeasSpec, WithStatus, AfterFailure, Violates, Awaits, Audience, Disturbed, ApplyHealthTick,
      ApplyHealthReturn, ApplyHealthPublish;
  }

  lemma HealthPhases(st: State, step: Step, n: Name, o: ObjId)
    requires IsBackground(step)
    ensures HealthCalls(ApplyBackground(st, step), n, o) && !HealthCalls(st, n, o) <==>
              step == HealthTick(n) && Asks(st, n, o)
  {
    hide AfterPing, Awaits, Audience, Declares, ApplyGuardTick, ApplyGuardReturn, ApplyGuardTrip, ApplyGuardPublish;
  }

  // ---------------------------------------------------------------- guards and health tasks that are new or gone

  /** The guard that IWATCH starts: its own instrument is READY and has the resource. */
  ghost predicate Starts(st: State, step: Step, t: TaskId, g: Guard) {
    step.Watch? && t == st.nextTask && CanStart(st, step.session) && OwnedBy(st, step.name, step.session)
    && Names(st, step.name, g.obj) && HasStatus(st, g.obj, Ready) && step.resource in st.objs[g.obj].resources
    && g == Guard(g.obj, step.name, step.resource, step.low, step.high, Sleeping)
  }

  lemma WatchStarts(st: State, step: Step, t: TaskId, g: Guard)
    requires TablesOk(st) && step.Watch?
    ensures var b := ApplyWatch(st, step.session, step.name, step.resource, step.low, step.high);
            t !in st.guards && t in b.guards && b.guards[t] == g <==> Starts(st, step, t, g)
  {
    assert st.nextTask !in st.guards;
    hide TablesOk, StopGuard;
    StopGuardTasks(st, step.name, step.resource, t);
  }

  lemma QuietStarts(st: State, step: Step, t: TaskId)
    requires !step.Watch? && !step.UnlockNext? && !step.CloseNext?
    ensures t in Apply(st, step).guards ==> t in st.guards
  {
    hide Apply, ApplyBackground, ApplyWatching, ApplyOwnership;
    Frame(st, step);
    if IsBackground(step) {
      BackgroundIs(st, step);
      BackgroundStarts(st, step, t);
    } else if IsWatching(step) {
      WatchingIs(st, step);
      WatchingStarts(st, step, t);
    } else if step.RemoveInstrument? {
      OwnershipIs(st, step);
      RemoveStarts(st, step, t);
    }
  }

  lemma BackgroundStarts(st: State, step: Step, t: TaskId)
    ensures t in ApplyBackground(st, step).guards ==> t in st.guards
  {
    hide WriteMeasSpec, WithStatus, AfterFailure, Violates, NotePhase, TripPhase, Disturbed, PublishedPhase,
      ApplyHealthTick, ApplyHealthReturn, ApplyHealthPublish;
  }

  lemma WatchingStarts(st: State, step: Step, t: TaskId)
    requires !step.Watch?
    ensures t in ApplyWatching(st, step).guards ==> t in st.guards
  {
    hide MarkStale, InvalidateSpec, TasksAt, OwnedBy, ApplyWatch, MeasPrefix;
  }

  lemma RemoveStarts(st: State, step: Step, t: TaskId)
    requires step.RemoveInstrument?
    ensures t in ApplyOwnership(st, step).guards ==> t in st.guards
  {
    hide TasksAt, ApplyAdd, ApplyLock, ApplyBeginUnlock, ApplyUnlockNext, ApplyUnlockRaises;
  }

  lemma TurnStarts(st: State, n: Name, s: Session, safe: bool, t: TaskId)
    ensures t in ReleaseOwned(st, n, s, safe).guards || t in StopGuards(st, n).guards ==> t in st.guards
  {
    hide TasksAt, InvalidateSpec, OwnedBy;
  }

  lemma ReleaseStarts(st: State, step: Step, t: TaskId)
    requires step.UnlockNext? || step.CloseNext?
    ensures t in Apply(st, step).guards ==> t in st.guards
  {
    hide Apply, ReleaseOwned, StopGuards, OwnedBy, ApplyAdd, ApplyRemove, ApplyLock, ApplyBeginUnlock, ApplyUnlockNext,
      ApplyUnlockRaises, ApplyStartClose, ApplyCloseNext, ApplyCloseKeys, ApplyFinishClose;
    if step.UnlockNext? {
      OwnershipIs(st, step);
      UnlockTables(st, step.safe);
      if st.command.Some? && st.command.value.Unlocking? && st.command.value.names != [] {
        TurnStarts(st, st.command.value.names[0], st.command.value.session, step.safe, t);
      }
    } else {
      ClosingIs(st, step);
      CloseTables(st, step.session, step.safe);
      var s := step.session;
      if s in st.closing && st.closing[s].Releasing? && st.closing[s].names != [] {
        TurnStarts(st, st.closing[s].names[0], s, step.safe, t);
      }
    }
  }

  /** A guard task is new exactly after an IWATCH under these conditions, with these limits. */
  lemma GuardStartsIff(st: State, step: Step, t: TaskId, g: Guard)
    requires Inv(st)
    ensures Guards(Apply(st, step), t, g) && t !in st.guards <==> Starts(st, step, t, g)
  {
    hide Apply, Starts, OkObjects, OkRegistry, TablesOk, OkHealth, CommandOk, OkSessions, OkKeys, OkSubs, ApplyWatch,
      ApplyUnwatch, ApplyUnwatchInstrument, ApplyUnwatchAll;
    assert Starts(st, step, t, g) ==> step.Watch? by {
      OnlyWatch(st, step, t, g);
    }
    if step.Watch? {
      WatchingIs(st, step);
      WatchStarts(st, step, t, g);
    } else if step.UnlockNext? || step.CloseNext? {
      ReleaseStarts(st, step, t);
    } else {
      QuietStarts(st, step, t);
    }
  }

  predicate Guards(st: State, t: TaskId, g: Guard) {
    t in st.guards && st.guards[t] == g
  }

  lemma OnlyWatch(st: State, step: Step, t: TaskId, g: Guard)
    ensures Starts(st, step, t, g) ==> step.Watch?
  {
  }

  // ---------------------------------------------------------------- names and health tasks

  /** IADD gets through: an unused name without spaces, a driver that connects, and no command in flight. */
  predicate AddsNew(st: State, step: Step, n: Name) {
    step.AddInstrument? && step.name == n && step.connects && st.command.None? && n !in st.registry && ' ' !in n
  }

  predicate AddsMonitored(st: State, step: Step, n: Name) {
    AddsNew(st, step, n) && step.monitored
  }

  lemma OwnershipNamesIff(st: State, step: Step, n: Name, o: ObjId)
    ensures IsOwnership(step) ==>
              (Names(ApplyOwnership(st, step), n, o) <==>
                 (Names(st, n, o) && !Removes(st, step, n)) || (AddsNew(st, step, n) && o == st.nextObj))
  {
    hide ApplyLock, ApplyBeginUnlock, ApplyUnlockNext, ApplyUnlockRaises, TasksAt;
  }

  /** What a name stands for after a step: the same as before, a new instrument after IADD, none after IREMOVE. */
  lemma NamesIff(st: State, step: Step, n: Name, o: ObjId)
    ensures Names(Apply(st, step), n, o) <==>
              (Names(st, n, o) && !Removes(st, step, n)) || (AddsNew(st, step, n) && o == st.nextObj)
  {
    hide Apply, ApplyOwnership;
    if IsOwnership(step) {
      OwnershipIs(st, step);
      OwnershipNamesIff(st, step, n, o);
    } else {
      RegistryFrame(st, step);
    }
  }

  /** The health task of `n` is left: its instrument goes, or a subscription came or went while it was writing. */
  predicate HealthEnds(st: State, step: Step, n: Name) {
    Removes(st, step, n)
    || (step == HealthPublish(n) && n in st.health && st.health[n].phase.Declaring?
        && Audience(st.subs, "instrument") != st.health[n].phase.size)
  }

  lemma HealthKept(st: State, step: Step, n: Name)
    requires IsBackground(step) && !step.HealthPublish?
    ensures n in ApplyBackground(st, step).health <==> n in st.health && !HealthEnds(st, step, n)
  {
    hide AfterPing, DeclarePhase, Audience, ApplyGuardTick, ApplyGuardReturn, ApplyGuardTrip, ApplyGuardPublish,
      ApplyHealthPublish;
  }

  lemma HealthPublished(st: State, n: Name, m: Name)
    ensures n in ApplyHealthPublish(st, m).health <==> n in st.health && !HealthEnds(st, HealthPublish(m), n)
  {
    hide Audience;
  }

  lemma BackgroundHealth(st: State, step: Step, n: Name)
    requires IsBackground(step)
    ensures n in ApplyBackground(st, step).health <==> n in st.health && !HealthEnds(st, step, n)
  {
    hide HealthEnds, ApplyGuardTick, ApplyGuardReturn, ApplyGuardTrip, ApplyGuardPublish, ApplyHealthTick,
      ApplyHealthReturn, ApplyHealthPublish;
    if step.HealthPublish? {
      HealthPublished(st, n, step.name);
    } else {
      HealthKept(st, step, n);
    }
  }

  lemma OwnershipHealth(st: State, step: Step, n: Name)
    ensures IsOwnership(step) ==>
              (n in ApplyOwnership(st, step).health <==>
                 (n in st.health && !HealthEnds(st, step, n)) || AddsMonitored(st, step, n))
  {
    hide ApplyLock, ApplyBeginUnlock, ApplyUnlockNext, ApplyUnlockRaises, TasksAt, Audience;
  }

  /** An instrument has a health task from its IADD, if it is to be monitored, until that task ends. */
  lemma HealthListedIff(st: State, step: Step, n: Name)
    ensures n in Apply(st, step).health <==>
              (n in st.health && !HealthEnds(st, step, n)) || AddsMonitored(st, step, n)
  {
    hide Apply, ApplyBackground, ApplyOwnership, Audience;
    if IsBackground(step) {
      BackgroundIs(st, step);
      BackgroundHealth(st, step, n);
    } else if IsOwnership(step) {
      OwnershipIs(st, step);
      OwnershipHealth(st, step, n);
    } else {
      Frame(st, step);
    }
  }

  lemma OtherHealth(st: State, step: Step, n: Name, o: ObjId)
    ensures IsOwnership(step) && HealthCalls(ApplyOwnership(st, step), n, o) ==> HealthCalls(st, n, o)
  {
    hide ApplyLock, ApplyBeginUnlock, ApplyUnlockNext, ApplyUnlockRaises, TasksAt;
  }

  /** A health task calls its instrument exactly after its tick, unless the instrument is broken. */
  lemma HealthCallIff(st: State, step: Step, n: Name, o: ObjId)
    ensures HealthCalls(Apply(st, step), n, o) && !HealthCalls(st, n, o) <==> step == HealthTick(n) && Asks(st, n, o)
  {
    hide Apply, ApplyBackground, ApplyOwnership, Asks;
    if IsBackground(step) {
      BackgroundIs(st, step);
      HealthPhases(st, step, n, o);
    } else if IsOwnership(step) {
      OwnershipIs(st, step);
      OtherHealth(st, step, n, o);
    } else {
      Frame(st, step);
    }
  }

  /** A guard calls its instrument exactly after its tick, if the instrument is READY. */
  lemma GuardCallIff(st: State, step: Step, t: TaskId, o: ObjId)
    requires Inv(st)
    ensures GuardCalls(Apply(st, step), t, o) && !GuardCalls(st, t, o) <==> step == GuardTick(t) && Wakes(st, t, o)
  {
    hide Apply, Inv, Starts, Wakes, ApplyBackground, Entry, Crashes, Ends;
    if IsBackground(step) {
      BackgroundIs(st, step);
      GuardPhases(st, step, t, o);
    } else if t in Apply(st, step).guards {
      AnyEntry(st, step, "", "", t);
      GuardStartsIff(st, step, t, Apply(st, step).guards[t]);
      NewSleeps(st, step, t, Apply(st, step).guards[t]);
    }
  }

  lemma NewSleeps(st: State, step: Step, t: TaskId, g: Guard)
    ensures Starts(st, step, t, g) ==> g.phase.Sleeping?
  {
  }

  // ---------------------------------------------------------------- subscriptions

  /** Somebody among the subscribers hears the event. */
  lemma AwaitsIff(subs: set<(Session, string)>, base: string, key: Option<string>)
    requires base in Events.VALID_CHANNELS
    ensures Awaits(subs, base, key) <==> exists sub :: sub in subs && Events.Hears(sub.1, base, key)
  {
    hide Events.Hears, Events.ParseChannel, Events.Admits;
    forall sub | sub in subs
      ensures Events.ParseChannel(sub.1).0 == base && Events.Admits(Events.Sub(sub.0, sub.1), key)
              <==> Events.Hears(sub.1, base, key)
    {
      Events.AdmitsIsHears(sub.0, sub.1, base, key);
    }
  }

  predicate SubscribesTo(st: State, step: Step, s: Session, c: string) {
    step == Subscribe(s, c) && CanStart(st, s) && Events.IsValidChannel(c)
  }

  predicate Forgets(st: State, step: Step, s: Session, c: string) {
    || (step == Unsubscribe(s, c) && CanStart(st, s))
    || step == DropSubscriber(s, c)
    || (step == FinishClose(s) && s in st.closing && st.closing[s].Unsubscribing?)
  }

  lemma ClientSubs(st: State, step: Step, s: Session, c: string)
    ensures IsClient(step) ==>
              ((s, c) in ApplyClient(st, step).subs <==>
                 SubscribesTo(st, step, s, c) || ((s, c) in st.subs && !Forgets(st, step, s, c)))
  {
    hide ApplyConnect, ApplyKeyOperation, CanStart, Events.IsValidChannel;
  }

  lemma ClosingSubs(st: State, step: Step, s: Session, c: string)
    ensures IsClosing(step) ==>
              ((s, c) in ApplyClosing(st, step).subs <==> (s, c) in st.subs && !Forgets(st, step, s, c))
  {
    hide ApplyStartClose, ApplyCloseNext, ApplyCloseKeys, Events.IsValidChannel;
  }

  lemma OthersSubscribeNot(st: State, step: Step, s: Session, c: string)
    ensures SubscribesTo(st, step, s, c) ==> IsClient(step)
    ensures Forgets(st, step, s, c) ==> IsClient(step) || IsClosing(step)
  {
    hide CanStart, Events.IsValidChannel;
  }

  /** Who is subscribed after a step. */
  lemma SubscribedIff(st: State, step: Step, s: Session, c: string)
    ensures (s, c) in Apply(st, step).subs <==>
              SubscribesTo(st, step, s, c) || ((s, c) in st.subs && !Forgets(st, step, s, c))
  {
    hide Apply, ApplyClient, ApplyClosing, SubscribesTo, Forgets;
    OthersSubscribeNot(st, step, s, c);
    if IsClient(step) {
      ClientIs(st, step);
      ClientSubs(st, step, s, c);
    } else if IsClosing(step) {
      ClosingIs(st, step);
      ClosingSubs(st, step, s, c);
    } else {
      Frame(st, step);
    }
  }

  // ---------------------------------------------------------------- broken instruments

  /** No step starts a call on an instrument that is FAULT or UNRESPONSIVE. */
  lemma BrokenIsNotCalled(st: State, step: Step, t: TaskId, n: Name, o: ObjId)
    requires Inv(st) && InFault(st, o)
    ensures var b := Apply(st, step);
            && (CommandCalls(b, o) ==> CommandCalls(st, o))
            && (GuardCalls(b, t, o) ==> GuardCalls(st, t, o))
            && (HealthCalls(b, n, o) ==> HealthCalls(st, n, o))
            && multiset(Running(b))[o] <= multiset(Running(st))[o]
  {
    hide Apply, Inv, CommandCalls, HealthCalls, BeginsCall, Running;
    CommandCallIff(st, step, o);
    NoCallBegins(st, step, o);
    UseCallIff(st, step, o);
    GuardCallIff(st, step, t, o);
    HealthCallIff(st, step, n, o);
  }
}
