/**
 * What every step of the bench keeps: `Inv`, taken apart into predicates over the fields they
 * speak about, and `StepInv`, which proves it kept by every step.
 */
module BenchInvariant {
  import opened Wrappers
  import opened Store
  import opened Bench
  import Events
  import StoreHistory

  // ---------------------------------------------------------------- the invariant

  /**
   * Objects are numbered as they are added and never go. An IDLE one has no owner; owners are session
   * ids that were given out.
   */
  ghost predicate OkObjects(objs: map<ObjId, Instrument>, nextObj: nat, nextSession: nat) {
    && (forall o: ObjId :: o in objs <==> o < nextObj)
    && forall o :: o in objs ==>
         && (objs[o].status == Idle ==> objs[o].owner == None)
         && (objs[o].owner.Some? ==> objs[o].owner.value < nextSession)
  }

  ghost predicate OkRegistry(objs: map<ObjId, Instrument>, registry: map<Name, ObjId>) {
    forall n :: n in registry ==> registry[n] in objs && objs[registry[n]].name == n
  }

  ghost predicate IsOwned(objs: map<ObjId, Instrument>, registry: map<Name, ObjId>, n: Name) {
    n in registry && registry[n] in objs && objs[registry[n]].owner.Some?
  }

  /** Watched instruments are registered and owned; no table is empty. */
  ghost predicate OkWatches(
    objs: map<ObjId, Instrument>, registry: map<Name, ObjId>, watches: map<Name, map<string, TaskId>>, nextTask: nat) {
    forall n :: n in watches ==>
      && IsOwned(objs, registry, n)
      && watches[n] != map[]
      && forall r :: r in watches[n] ==> watches[n][r] < nextTask
  }

  /** The guard task `t` is the one listed under its instrument and resource. */
  ghost predicate Listed(registry: map<Name, ObjId>, watches: map<Name, map<string, TaskId>>, t: TaskId, g: Guard) {
    && g.name in watches && g.resource in watches[g.name] && watches[g.name][g.resource] == t
    && g.name in registry && registry[g.name] == g.obj
  }

  ghost predicate OkGuards(
    registry: map<Name, ObjId>, watches: map<Name, map<string, TaskId>>, guards: map<TaskId, Guard>, nextTask: nat) {
    && (forall t :: t in guards ==> t < nextTask && Listed(registry, watches, t, guards[t]))
    && (forall n, r :: n in watches && r in watches[n] && watches[n][r] in guards ==>
          guards[watches[n][r]].name == n && guards[watches[n][r]].resource == r)
  }

  ghost predicate OkHealth(registry: map<Name, ObjId>, health: map<Name, HealthTask>) {
    forall n :: n in health ==> n in registry && health[n].obj == registry[n]
  }

  ghost predicate Belongs(objs: map<ObjId, Instrument>, o: ObjId, s: Session) {
    o in objs && objs[o].owner == Some(s)
  }

  /** The instruments a use command works on belong to its session, and so does the marked one. */
  ghost predicate OkCommand(
    objs: map<ObjId, Instrument>, registry: map<Name, ObjId>, command: Option<Command>, live: set<Session>) {
    command.Some? ==>
      && command.value.session in live
      && match command.value {
           case Using(s, pending, running, mark) =>
             && (forall o :: o in pending ==> Belongs(objs, o, s))
             && (forall o :: o in running ==> Belongs(objs, o, s))
             && (mark.Some? ==>
                   ':' !in mark.value.0 && mark.value.0 in registry && Belongs(objs, registry[mark.value.0], s))
           case _ => true
         }
  }

  ghost predicate OkSessions(live: set<Session>, closing: map<Session, Closing>, nextSession: nat) {
    && (forall s :: s in live ==> s < nextSession && s !in closing)
    && (forall s :: s in closing ==> s < nextSession)
  }

  /** Keys belong to sessions that are connected or whose cleanup has not come to them. */
  ghost predicate OkKeys(db: Db, live: set<Session>, closing: map<Session, Closing>) {
    && (forall k :: k in db.owners ==>
          var s := db.owners[k]; s in live || (s in closing && closing[s].Releasing?))
    && StoreHistory.Consistent(db)
  }

  ghost predicate OkSubs(subs: set<(Session, string)>, live: set<Session>, closing: map<Session, Closing>) {
    forall sub :: sub in subs ==> sub.0 in live || sub.0 in closing
  }

  ghost predicate CommandOk(st: State) {
    OkCommand(st.objs, st.registry, st.command, st.live)
  }

  ghost predicate TablesOk(st: State) {
    && OkWatches(st.objs, st.registry, st.watches, st.nextTask)
    && OkGuards(st.registry, st.watches, st.guards, st.nextTask)
  }

  ghost predicate Inv(st: State) {
    && OkObjects(st.objs, st.nextObj, st.nextSession)
    && OkRegistry(st.objs, st.registry)
    && TablesOk(st)
    && OkHealth(st.registry, st.health)
    && CommandOk(st)
    && OkSessions(st.live, st.closing, st.nextSession)
    && OkKeys(st.db, st.live, st.closing)
    && OkSubs(st.subs, st.live, st.closing)
  }

  // ---------------------------------------------------------------- calm steps

  /** Same objects, names and owners; none becomes IDLE. */
  ghost predicate SameOwners(a: map<ObjId, Instrument>, b: map<ObjId, Instrument>) {
    a == b
    || (&& a.Keys == b.Keys
        && forall o :: o in a ==>
             b[o].name == a[o].name && b[o].owner == a[o].owner && (b[o].status == Idle ==> a[o].status == Idle))
  }

  /** Guard tasks may end or change phase, nothing else. */
  ghost predicate SameGuards(a: map<TaskId, Guard>, b: map<TaskId, Guard>) {
    a == b
    || forall t :: t in b ==>
         t in a && b[t].obj == a[t].obj && b[t].name == a[t].name && b[t].resource == a[t].resource
  }

  ghost predicate SameHealth(a: map<Name, HealthTask>, b: map<Name, HealthTask>) {
    a == b || forall n :: n in b ==> n in a && b[n].obj == a[n].obj
  }

  /** A step that changes no ownership, no table and no session. */
  ghost predicate Calm(a: State, b: State) {
    && b == a.(objs := b.objs, guards := b.guards, health := b.health, meas := b.meas, command := b.command)
    && SameOwners(a.objs, b.objs) && SameGuards(a.guards, b.guards) && SameHealth(a.health, b.health)
  }

  lemma CalmObjects(a: State, objs: map<ObjId, Instrument>)
    requires OkObjects(a.objs, a.nextObj, a.nextSession) && OkRegistry(a.objs, a.registry) && SameOwners(a.objs, objs)
    ensures OkObjects(objs, a.nextObj, a.nextSession) && OkRegistry(objs, a.registry)
  {
  }

  lemma CalmTables(a: State, b: State)
    requires TablesOk(a) && OkHealth(a.registry, a.health) && Calm(a, b)
    ensures TablesOk(b) && OkHealth(b.registry, b.health)
  {
    assert forall n :: IsOwned(a.objs, a.registry, n) ==> IsOwned(b.objs, b.registry, n);
    hide IsOwned, SameOwners;
  }

  lemma CalmKeepsInv(a: State, b: State)
    requires Inv(a) && Calm(a, b) && CommandOk(b)
    ensures Inv(b)
  {
    hide OkObjects, OkRegistry, TablesOk, OkHealth, CommandOk, OkSessions, OkKeys, OkSubs, SameOwners, SameGuards,
      SameHealth;
    CalmObjects(a, b.objs);
    CalmTables(a, b);
  }

  /** A calm step that leaves the command alone or ends it. */
  lemma CalmCommand(a: State, b: State)
    requires CommandOk(a) && Calm(a, b) && (b.command == a.command || b.command.None?)
    ensures CommandOk(b)
  {
  }

  lemma CommandSession(st: State)
    requires CommandOk(st) && st.command.Some?
    ensures st.command.value.session in st.live
  {
  }

  /** Commands over several steps, other than uses, carry no obligation but their session. */
  lemma PlainCommand(b: State)
    requires b.command.Some? ==> !b.command.value.Using? && b.command.value.session in b.live
    ensures CommandOk(b)
  {
  }
  lemma NothingNew(st: State)
    ensures SameOwners(st.objs, st.objs) && SameGuards(st.guards, st.guards) && SameHealth(st.health, st.health)
  {
  }

  lemma FailureOwners(objs: map<ObjId, Instrument>, o: ObjId, outcome: Outcome)
    ensures SameOwners(objs, AfterFailure(objs, o, outcome)) && SameOwners(objs, AfterUse(objs, o, outcome))
    ensures SameOwners(objs, WithStatus(objs, o, Fault))
  {
  }

  lemma ReadyOwners(objs: map<ObjId, Instrument>, o: ObjId, found: seq<string>)
    ensures SameOwners(objs, MarkReady(objs, o, found))
  {
  }

  // ---------------------------------------------------------------- calm steps, one by one

  lemma BeginCalm(st: State, step: Step)
    requires CommandOk(st) && (step.BeginInit? || step.BeginAlign? || step.AlignNext? || step.BeginPing?)
    ensures Calm(st, ApplyLifecycle(st, step)) && CommandOk(ApplyLifecycle(st, step))
  {
    hide CommandOk, SameOwners, SameGuards, SameHealth, ApplyInitReturn, ApplyAlignReturn, ApplyReset, ApplyPingReturn;
    NothingNew(st);
    var b := ApplyLifecycle(st, step);
    if b != st {
      if st.command.Some? {
        CommandSession(st);
      }
      PlainCommand(b);
    }
  }

  lemma InitCallOwners(objs: map<ObjId, Instrument>, init: Command, outcome: Outcome, found: seq<string>)
    requires init.Initing?
    ensures SameOwners(objs, AfterInitCall(objs, init, outcome, found))
  {
    FailureOwners(objs, init.obj, outcome);
    ReadyOwners(objs, init.obj, found);
    hide AfterFailure, MarkReady;
  }

  lemma InitReturnCalm(st: State, outcome: Outcome, found: seq<string>)
    requires CommandOk(st)
    ensures Calm(st, ApplyInitReturn(st, outcome, found)) && CommandOk(ApplyInitReturn(st, outcome, found))
  {
    hide SameOwners, SameGuards, SameHealth, CommandOk, AfterInitCall;
    NothingNew(st);
    if st.command.Some? && st.command.value.Initing? {
      CommandSession(st);
      InitCallOwners(st.objs, st.command.value, outcome, found);
      PlainCommand(ApplyInitReturn(st, outcome, found));
    }
  }

  lemma AlignReturnCalm(st: State, outcome: Outcome, found: seq<string>)
    requires CommandOk(st)
    ensures Calm(st, ApplyAlignReturn(st, outcome, found)) && CommandOk(ApplyAlignReturn(st, outcome, found))
  {
    hide SameOwners, SameGuards, SameHealth, CommandOk, AfterFailure, MarkReady;
    NothingNew(st);
    if st.command.Some? && st.command.value.Aligning? && st.command.value.current.Some? {
      CommandSession(st);
      FailureOwners(st.objs, st.command.value.current.value, outcome);
      ReadyOwners(st.objs, st.command.value.current.value, found);
      PlainCommand(ApplyAlignReturn(st, outcome, found));
    }
  }

  lemma ResetCalm(st: State, s: Session, n: Name, connects: bool)
    requires CommandOk(st)
    ensures Calm(st, ApplyReset(st, s, n, connects)) && CommandOk(ApplyReset(st, s, n, connects))
  {
    hide SameGuards, SameHealth, CommandOk;
    NothingNew(st);
    CalmCommand(st, ApplyReset(st, s, n, connects));
  }

  lemma PingReturnCalm(st: State, outcome: Outcome)
    requires CommandOk(st)
    ensures Calm(st, ApplyPingReturn(st, outcome)) && CommandOk(ApplyPingReturn(st, outcome))
  {
    hide SameOwners, SameGuards, SameHealth, CommandOk, AfterFailure;
    NothingNew(st);
    if st.command.Some? && st.command.value.Pinging? {
      FailureOwners(st.objs, st.command.value.obj, outcome);
      PlainCommand(ApplyPingReturn(st, outcome));
    }
  }

  lemma LifecycleCalm(st: State, step: Step)
    requires CommandOk(st) && IsLifecycle(step)
    ensures Calm(st, ApplyLifecycle(st, step)) && CommandOk(ApplyLifecycle(st, step))
  {
    hide Calm, CommandOk, ApplyBeginInit, ApplyInitReturn, ApplyBeginAlign, ApplyAlignNext, ApplyAlignReturn,
      ApplyReset, ApplyBeginPing, ApplyPingReturn;
    if step.InitReturn? {
      InitReturnCalm(st, step.outcome, step.found);
    } else if step.AlignReturn? {
      AlignReturnCalm(st, step.outcome, step.found);
    } else if step.Reset? {
      ResetCalm(st, step.session, step.name, step.connects);
    } else if step.PingReturn? {
      PingReturnCalm(st, step.outcome);
    } else {
      BeginCalm(st, step);
    }
  }

  /** A use command is in order when everything it holds belongs to its connected session. */
  lemma UseCommand(a: State, b: State, from: seq<ObjId>)
    requires Calm(a, b) && b.command.Some? && b.command.value.Using?
    requires var Using(s, pending, running, mark) := b.command.value;
             && s in a.live
             && (forall o :: o in from ==> Belongs(a.objs, o, s))
             && (mark.Some? ==> ':' !in mark.value.0 && OwnedBy(a, mark.value.0, s))
             && (forall o :: o in pending ==> o in from) && (forall o :: o in running ==> o in from)
    ensures CommandOk(b)
  {
  }

  lemma BeginUseCalm(st: State, s: Session, names: seq<Name>)
    requires CommandOk(st)
    ensures Calm(st, ApplyBeginUse(st, s, names)) && CommandOk(ApplyBeginUse(st, s, names))
  {
    hide CommandOk, SameOwners, SameGuards, SameHealth;
    NothingNew(st);
    var b := ApplyBeginUse(st, s, names);
    if b != st {
      var objs := ObjectsOf(st, names);
      forall i | 0 <= i < |objs| ensures Belongs(st.objs, objs[i], s) {
        assert OwnedBy(st, names[i], s);
      }
      UseCommand(st, b, objs);
    }
  }

  lemma BeginReadCalm(st: State, s: Session, args: seq<string>, marked: bool)
    requires CommandOk(st)
    ensures Calm(st, ApplyBeginRead(st, s, args, marked)) && CommandOk(ApplyBeginRead(st, s, args, marked))
  {
    hide ReadTarget, WriteMeasSpec, CommandOk, ErrorStatus, NotFoundText, SameOwners, SameGuards, SameHealth;
    NothingNew(st);
    var b := ApplyBeginRead(st, s, args, marked);
    if b.command == st.command {
      CalmCommand(st, b);
    } else {
      UseCommand(st, b, [st.registry[ReadTarget(args).value.0]]);
    }
  }

  /** What a use command in flight holds. */
  lemma UseHolds(st: State)
    requires CommandOk(st) && st.command.Some? && st.command.value.Using?
    ensures var Using(s, pending, running, mark) := st.command.value;
            && s in st.live
            && (forall o :: o in pending + running ==> Belongs(st.objs, o, s))
            && (mark.Some? ==> ':' !in mark.value.0 && OwnedBy(st, mark.value.0, s))
  {
  }

  /** The instrument of a running call, and that of a guard, have an owner. */
  lemma CallOwned(st: State, i: nat)
    requires CommandOk(st) && st.command.Some? && st.command.value.Using? && i < |st.command.value.running|
    ensures Belongs(st.objs, st.command.value.running[i], st.command.value.session)
  {
  }

  lemma GuardOwned(st: State, t: TaskId)
    requires TablesOk(st) && t in st.guards
    ensures IsOwned(st.objs, st.registry, st.guards[t].name) && st.registry[st.guards[t].name] == st.guards[t].obj
  {
    assert Listed(st.registry, st.watches, t, st.guards[t]);
    hide IsOwned;
  }

  lemma UseStartCalm(st: State, index: nat)
    requires CommandOk(st)
    ensures Calm(st, ApplyUseStart(st, index)) && CommandOk(ApplyUseStart(st, index))
  {
    hide CommandOk, Belongs, OwnedBy, NoteMark, RemoveAt, ErrorStatus, NotReadyText, SameOwners, SameGuards, SameHealth;
    NothingNew(st);
    var b := ApplyUseStart(st, index);
    assert Calm(st, b);
    if st.command.Some? && st.command.value.Using? && index < |st.command.value.pending| {
      UseHolds(st);
      hide Calm;
      UseCommand(st, b, st.command.value.pending + st.command.value.running);
    }
  }

  /** The shape of a call that ends. */
  lemma CallCalm(a: State, b: State)
    ensures b == a.(objs := b.objs, meas := b.meas, command := b.command) && SameOwners(a.objs, b.objs) ==> Calm(a, b)
  {
    hide SameOwners;
    NothingNew(a);
  }

  lemma UseReturnShape(st: State, index: nat, outcome: Outcome)
    ensures Calm(st, ApplyUseReturn(st, index, outcome))
  {
    hide Calm, SameOwners, NoteMark, RemoveAt, AfterUse, UseValue, UseStatus;
    NothingNew(st);
    CallCalm(st, ApplyUseReturn(st, index, outcome));
    if st.command.Some? && st.command.value.Using? && index < |st.command.value.running| {
      FailureOwners(st.objs, st.command.value.running[index], outcome);
    }
  }

  lemma UseReturnCalm(st: State, index: nat, outcome: Outcome)
    requires CommandOk(st)
    ensures Calm(st, ApplyUseReturn(st, index, outcome)) && CommandOk(ApplyUseReturn(st, index, outcome))
  {
    hide Calm, CommandOk, Belongs, NoteMark, RemoveAt, AfterUse, UseValue, UseStatus, OwnedBy;
    UseReturnShape(st, index, outcome);
    if st.command.Some? && st.command.value.Using? && index < |st.command.value.running| {
      UseHolds(st);
      UseCommand(st, ApplyUseReturn(st, index, outcome), st.command.value.pending + st.command.value.running);
    }
  }

  lemma UseCalm(st: State, step: Step)
    requires CommandOk(st) && IsUse(step)
    ensures Calm(st, ApplyUse(st, step)) && CommandOk(ApplyUse(st, step))
  {
    NothingNew(st);
    hide SameOwners, SameGuards, SameHealth, CommandOk, ApplyBeginUse, ApplyBeginRead, ApplyUseStart, ApplyUseReturn;
    if step.UseDone? {
      CalmCommand(st, ApplyUseDone(st));
    } else if step.BeginUse? {
      BeginUseCalm(st, step.session, step.names);
    } else if step.BeginRead? {
      BeginReadCalm(st, step.session, step.args, step.marked);
    } else if step.UseStart? {
      UseStartCalm(st, step.index);
    } else {
      UseReturnCalm(st, step.index, step.outcome);
    }
  }

  lemma OneGuard(guards: map<TaskId, Guard>, t: TaskId, phase: Phase)
    ensures SameGuards(guards, WithPhase(guards, t, phase)) && SameGuards(guards, guards - {t})
  {
  }

  lemma GuardReturnCalm(st: State, t: TaskId, outcome: Outcome, number: Option<real>)
    requires CommandOk(st)
    ensures Calm(st, ApplyGuardReturn(st, t, outcome, number)) && CommandOk(ApplyGuardReturn(st, t, outcome, number))
  {
    hide SameOwners, SameGuards, SameHealth, CommandOk, Violates, WriteMeasSpec, AfterFailure, NotePhase, WithPhase;
    NothingNew(st);
    if t in st.guards {
      var g := st.guards[t];
      OneGuard(st.guards, t, NotePhase(st.subs, g.name, g.resource,
        if outcome.Returned? && Violates(number, g.low, g.high) then Some(outcome.text) else None));
      FailureOwners(st.objs, g.obj, outcome);
    }
    CalmCommand(st, ApplyGuardReturn(st, t, outcome, number));
  }

  lemma GuardTripCalm(st: State, t: TaskId)
    requires CommandOk(st)
    ensures Calm(st, ApplyGuardTrip(st, t)) && CommandOk(ApplyGuardTrip(st, t))
  {
    hide SameOwners, SameGuards, SameHealth, CommandOk, WriteMeasSpec, WithStatus, TripPhase, WithPhase;
    NothingNew(st);
    if t in st.guards {
      OneGuard(st.guards, t, TripPhase(st.subs, st.guards[t].name, st.guards[t].resource));
      FailureOwners(st.objs, st.guards[t].obj, TimedOut);
    }
    CalmCommand(st, ApplyGuardTrip(st, t));
  }

  lemma GuardsCalm(a: State, guards: map<TaskId, Guard>)
    ensures SameGuards(a.guards, guards) ==> Calm(a, a.(guards := guards))
    ensures CommandOk(a) ==> CommandOk(a.(guards := guards))
  {
    hide SameOwners, SameGuards, SameHealth, OkCommand;
    NothingNew(a);
  }

  lemma HealthCalm(a: State, health: map<Name, HealthTask>)
    ensures SameHealth(a.health, health) ==> Calm(a, a.(health := health))
    ensures CommandOk(a) ==> CommandOk(a.(health := health))
  {
    hide SameOwners, SameGuards, SameHealth, OkCommand;
    NothingNew(a);
  }

  lemma GuardTickCalm(st: State, t: TaskId)
    requires CommandOk(st)
    ensures Calm(st, ApplyGuardTick(st, t)) && CommandOk(ApplyGuardTick(st, t))
  {
    hide Calm, CommandOk, SameGuards, SameOwners, SameHealth, WithPhase;
    NothingNew(st);
    OneGuard(st.guards, t, Reading);
    GuardsCalm(st, ApplyGuardTick(st, t).guards);
  }

  lemma GuardPublishCalm(st: State, t: TaskId)
    requires CommandOk(st)
    ensures Calm(st, ApplyGuardPublish(st, t)) && CommandOk(ApplyGuardPublish(st, t))
  {
    hide Calm, CommandOk, SameGuards, SameOwners, SameHealth, WithPhase, PublishedPhase, Disturbed;
    NothingNew(st);
    if t in st.guards {
      OneGuard(st.guards, t, PublishedPhase(st.subs, st.guards[t].phase));
    }
    GuardsCalm(st, ApplyGuardPublish(st, t).guards);
  }

  lemma HealthStepCalm(st: State, n: Name)
    requires CommandOk(st)
    ensures Calm(st, ApplyHealthTick(st, n)) && CommandOk(ApplyHealthTick(st, n))
    ensures Calm(st, ApplyHealthPublish(st, n)) && CommandOk(ApplyHealthPublish(st, n))
  {
    hide Calm, CommandOk, Audience;
    HealthCalm(st, ApplyHealthTick(st, n).health);
    HealthCalm(st, ApplyHealthPublish(st, n).health);
  }

  lemma HealthReturnCalm(st: State, n: Name, outcome: Outcome)
    requires CommandOk(st)
    ensures Calm(st, ApplyHealthReturn(st, n, outcome)) && CommandOk(ApplyHealthReturn(st, n, outcome))
  {
    hide SameGuards, CommandOk, DeclarePhase;
    NothingNew(st);
    CalmCommand(st, ApplyHealthReturn(st, n, outcome));
  }

  lemma BackgroundCalm(st: State, step: Step)
    requires CommandOk(st) && IsBackground(step)
    ensures Calm(st, ApplyBackground(st, step)) && CommandOk(ApplyBackground(st, step))
  {
    hide Calm, CommandOk, ApplyGuardTick, ApplyGuardReturn, ApplyGuardTrip, ApplyGuardPublish, ApplyHealthTick,
      ApplyHealthReturn, ApplyHealthPublish;
    if step.GuardReturn? {
      GuardReturnCalm(st, step.task, step.outcome, step.number);
    } else if step.GuardTrip? {
      GuardTripCalm(st, step.task);
    } else if step.GuardTick? {
      GuardTickCalm(st, step.task);
    } else if step.GuardPublish? {
      GuardPublishCalm(st, step.task);
    } else if step.HealthReturn? {
      HealthReturnCalm(st, step.name, step.outcome);
    } else {
      HealthStepCalm(st, step.name);
    }
  }

  // ---------------------------------------------------------------- guards and releases

  /** Stopping the guards of `n` leaves every other table and task listed. */
  lemma StopGuardsTables(st: State, n: Name)
    requires TablesOk(st)
    ensures TablesOk(StopGuards(st, n))
  {
    var b := StopGuards(st, n);
    forall t | t in b.guards ensures Listed(b.registry, b.watches, t, b.guards[t]) {
      assert Listed(st.registry, st.watches, t, st.guards[t]);
      assert st.guards[t].name == n ==> t in TasksAt(st.watches, n);
    }
  }

  lemma StopGuardsInv(st: State, n: Name)
    requires Inv(st)
    ensures Inv(StopGuards(st, n))
  {
    StopGuardsTables(st, n);
    hide OkObjects, OkRegistry, OkWatches, OkGuards, OkHealth, OkCommand, OkSessions, OkKeys, OkSubs, TasksAt;
  }

  lemma StopGuardWatches(st: State, n: Name, r: string)
    requires OkWatches(st.objs, st.registry, st.watches, st.nextTask)
    ensures OkWatches(st.objs, st.registry, StopGuard(st, n, r).watches, st.nextTask)
    ensures n in StopGuard(st, n, r).watches ==> r !in StopGuard(st, n, r).watches[n]
  {
    hide IsOwned;
  }

  /** Exactly the entry of `n` and `r` disappears. */
  lemma StopGuardEntries(st: State, n: Name, r: string, m: Name, q: string)
    ensures var watches := StopGuard(st, n, r).watches;
            (m in watches && q in watches[m]) <==> (m in st.watches && q in st.watches[m] && !(m == n && q == r))
    ensures var watches := StopGuard(st, n, r).watches;
            m in watches && q in watches[m] ==> watches[m][q] == st.watches[m][q]
  {
    if n in st.watches && r in st.watches[n] {
      var table := st.watches[n] - {r};
      if m == n && q in st.watches[n] && q != r {
        assert q in table;
      }
    }
  }

  lemma StopGuardTasks(st: State, n: Name, r: string, t: TaskId)
    ensures t in StopGuard(st, n, r).guards <==>
              t in st.guards && !(n in st.watches && r in st.watches[n] && st.watches[n][r] == t)
    ensures t in StopGuard(st, n, r).guards ==> StopGuard(st, n, r).guards[t] == st.guards[t]
  {
  }

  lemma StopGuardGuards(st: State, n: Name, r: string)
    requires OkGuards(st.registry, st.watches, st.guards, st.nextTask)
    ensures OkGuards(st.registry, StopGuard(st, n, r).watches, StopGuard(st, n, r).guards, st.nextTask)
  {
    hide StopGuard;
    var b := StopGuard(st, n, r);
    forall t | t in b.guards ensures t < st.nextTask && Listed(st.registry, b.watches, t, b.guards[t]) {
      StopGuardTasks(st, n, r, t);
      var g := st.guards[t];
      assert Listed(st.registry, st.watches, t, g);
      StopGuardEntries(st, n, r, g.name, g.resource);
    }
    forall m, q | m in b.watches && q in b.watches[m] && b.watches[m][q] in b.guards
      ensures b.guards[b.watches[m][q]].name == m && b.guards[b.watches[m][q]].resource == q
    {
      StopGuardEntries(st, n, r, m, q);
      StopGuardTasks(st, n, r, b.watches[m][q]);
    }
  }

  lemma StopGuardInv(st: State, n: Name, r: string)
    requires Inv(st)
    ensures Inv(StopGuard(st, n, r))
    ensures n in StopGuard(st, n, r).watches ==> r !in StopGuard(st, n, r).watches[n]
  {
    StopGuardWatches(st, n, r);
    StopGuardGuards(st, n, r);
    hide OkObjects, OkRegistry, OkWatches, OkGuards, OkHealth, OkCommand, OkSessions, OkKeys, OkSubs;
  }

  /** Replacing the command by one that is no use, or by none. */
  lemma SetCommand(st: State, c: Option<Command>)
    requires Inv(st) && (c.Some? ==> !c.value.Using? && c.value.session in st.live)
    ensures Inv(st.(command := c))
  {
    hide OkObjects, OkRegistry, OkWatches, OkGuards, OkHealth, OkSessions, OkKeys, OkSubs;
  }

  /** The session `s` that owns instrument `n` runs no use command. */
  predicate NotInUse(st: State, s: Session) {
    st.command.Some? ==> !st.command.value.Using? || st.command.value.session != s
  }

  /** Releasing an instrument whose owner runs no use command. */
  lemma ReleaseInv(st: State, n: Name, s: Session, safe: bool)
    requires Inv(st) && OwnedBy(st, n, s) && NotInUse(st, s)
    ensures Inv(Release(st, n, safe))
  {
    ReleaseObjects(st, n, safe);
    ReleaseTables(st, n, safe);
    ReleaseCommand(st, n, s, safe);
    hide OkObjects, OkRegistry, OkWatches, OkGuards, OkHealth, OkCommand, OkSessions, OkKeys, OkSubs, Release;
  }

  lemma ReleaseObjects(st: State, n: Name, safe: bool)
    requires OkObjects(st.objs, st.nextObj, st.nextSession) && OkRegistry(st.objs, st.registry) && n in st.registry
    ensures OkObjects(Release(st, n, safe).objs, st.nextObj, st.nextSession)
    ensures OkRegistry(Release(st, n, safe).objs, st.registry)
  {
    hide InvalidateSpec, TasksAt;
  }

  lemma ReleaseTables(st: State, n: Name, safe: bool)
    requires OkRegistry(st.objs, st.registry) && TablesOk(st) && n in st.registry
    ensures TablesOk(Release(st, n, safe))
  {
    hide InvalidateSpec, OkGuards, OkWatches;
    StopGuardsTables(st, n);
    var a, b := StopGuards(st, n), Release(st, n, safe);
    assert b == a.(objs := b.objs, meas := b.meas);
    hide Release, StopGuards;
    ReleaseWatches(st, n, safe);
  }

  lemma ReleaseWatches(st: State, n: Name, safe: bool)
    requires OkRegistry(st.objs, st.registry) && n in st.registry
    requires OkWatches(st.objs, st.registry, StopGuards(st, n).watches, st.nextTask)
    ensures OkWatches(Release(st, n, safe).objs, st.registry, StopGuards(st, n).watches, st.nextTask)
  {
    hide InvalidateSpec, TasksAt;
    var b := Release(st, n, safe);
    forall m | m in st.watches && m != n && IsOwned(st.objs, st.registry, m) ensures IsOwned(b.objs, st.registry, m) {
      assert st.objs[st.registry[m]].name == m;
    }
  }

  lemma ReleaseCommand(st: State, n: Name, s: Session, safe: bool)
    requires CommandOk(st) && OwnedBy(st, n, s) && NotInUse(st, s)
    ensures OkCommand(Release(st, n, safe).objs, st.registry, st.command, st.live)
  {
    hide InvalidateSpec, TasksAt;
  }

  lemma UnlockNextInv(st: State, safe: bool)
    requires Inv(st)
    ensures Inv(ApplyUnlockNext(st, safe))
  {
    if st.command.Some? && st.command.value.Unlocking? {
      CommandSession(st);
      var Unlocking(s, names, all) := st.command.value;
      hide Inv, Release, StopGuards, OwnedBy;
      if names == [] || (names[0] !in st.registry && all) {
        SetCommand(st, None);
      } else if OwnedBy(st, names[0], s) {
        ReleaseInv(st, names[0], s, safe);
        SetCommand(Release(st, names[0], safe), Some(Unlocking(s, names[1..], all)));
      } else if all {
        SetCommand(st, Some(Unlocking(s, names[1..], all)));
      } else {
        StopGuardsInv(st, names[0]);
        SetCommand(StopGuards(st, names[0]), None);
      }
    }
  }

  // ---------------------------------------------------------------- registry

  lemma AddTables(st: State, n: Name, inst: Instrument)
    requires TablesOk(st) && OkHealth(st.registry, st.health) && OkRegistry(st.objs, st.registry)
    requires n !in st.registry && st.nextObj !in st.objs
    ensures OkWatches(st.objs[st.nextObj := inst], st.registry[n := st.nextObj], st.watches, st.nextTask)
    ensures OkGuards(st.registry[n := st.nextObj], st.watches, st.guards, st.nextTask)
    ensures OkHealth(st.registry[n := st.nextObj], st.health)
    ensures OkHealth(st.registry[n := st.nextObj], st.health[n := HealthTask(st.nextObj, Waiting)])
  {
    var registry := st.registry[n := st.nextObj];
    forall t | t in st.guards ensures Listed(registry, st.watches, t, st.guards[t]) {
      assert Listed(st.registry, st.watches, t, st.guards[t]);
    }
    forall m | m in st.watches ensures IsOwned(st.objs[st.nextObj := inst], registry, m) {
      assert IsOwned(st.objs, st.registry, m);
    }
  }

  lemma AddObjects(st: State, n: Name)
    requires OkObjects(st.objs, st.nextObj, st.nextSession) && OkRegistry(st.objs, st.registry)
    ensures st.nextObj !in st.objs
    ensures OkObjects(st.objs[st.nextObj := Instrument(n, Idle, None, [], 0)], st.nextObj + 1, st.nextSession)
    ensures OkRegistry(st.objs[st.nextObj := Instrument(n, Idle, None, [], 0)], st.registry[n := st.nextObj])
  {
  }

  lemma AddInv(st: State, n: Name, monitored: bool, connects: bool)
    requires Inv(st)
    ensures Inv(ApplyAdd(st, n, monitored, connects))
  {
    hide OkObjects, OkRegistry, OkWatches, OkGuards, OkHealth, OkSessions, OkKeys, OkSubs;
    if st.command.None? && ' ' !in n && n !in st.registry && connects {
      AddObjects(st, n);
      AddTables(st, n, Instrument(n, Idle, None, [], 0));
    }
  }

  lemma RemoveTables(st: State, n: Name)
    requires TablesOk(st) && OkHealth(st.registry, st.health) && n !in st.watches
    ensures OkWatches(st.objs, st.registry - {n}, st.watches, st.nextTask)
    ensures OkGuards(st.registry - {n}, st.watches, st.guards, st.nextTask)
    ensures OkHealth(st.registry - {n}, st.health - {n})
  {
    forall t | t in st.guards ensures Listed(st.registry - {n}, st.watches, t, st.guards[t]) {
      assert Listed(st.registry, st.watches, t, st.guards[t]);
    }
    forall m | m in st.watches ensures IsOwned(st.objs, st.registry - {n}, m) {
      assert IsOwned(st.objs, st.registry, m);
    }
  }

  lemma RemoveInv(st: State, n: Name)
    requires Inv(st)
    ensures Inv(ApplyRemove(st, n))
  {
    if st.command.None? {
      StopGuardsInv(st, n);
      var a, b := StopGuards(st, n), ApplyRemove(st, n);
      assert b == a.(health := a.health - {n}, registry := a.registry - {n});
      assert n !in a.watches;
      hide StopGuards, ApplyRemove, OkObjects, OkWatches, OkGuards, OkHealth, OkSessions, OkKeys, OkSubs;
      RemoveTables(a, n);
    }
  }

  lemma AcquireOneObjects(st: State, s: Session, o: ObjId)
    requires OkObjects(st.objs, st.nextObj, st.nextSession) && OkRegistry(st.objs, st.registry)
    requires s < st.nextSession
    ensures var objs := AcquireOne(st, s, o).objs;
            OkObjects(objs, st.nextObj, st.nextSession) && OkRegistry(objs, st.registry)
  {
  }

  lemma AcquireOneWatches(st: State, s: Session, o: ObjId)
    requires OkWatches(st.objs, st.registry, st.watches, st.nextTask)
    ensures OkWatches(AcquireOne(st, s, o).objs, st.registry, st.watches, st.nextTask)
  {
    var objs := AcquireOne(st, s, o).objs;
    assert forall m :: IsOwned(st.objs, st.registry, m) ==> IsOwned(objs, st.registry, m);
    hide IsOwned, AcquireOne;
  }

  lemma AcquireOneInv(st: State, s: Session, o: ObjId)
    requires Inv(st) && st.command.None? && s < st.nextSession
    ensures Inv(AcquireOne(st, s, o))
  {
    AcquireOneObjects(st, s, o);
    AcquireOneWatches(st, s, o);
    hide AcquireOne, OkObjects, OkRegistry, OkWatches, OkGuards, OkHealth, OkSessions, OkKeys, OkSubs;
  }

  lemma {:induction false} AcquireInv(st: State, s: Session, names: seq<Name>)
    requires Inv(st) && st.command.None? && s < st.nextSession
    ensures Inv(Acquire(st, s, names))
    decreases |names|
  {
    hide Inv, AcquireOne;
    if names != [] {
      if names[0] in st.registry {
        AcquireOneInv(st, s, st.registry[names[0]]);
      }
      AcquireInv(if names[0] in st.registry then AcquireOne(st, s, st.registry[names[0]]) else st, s, names[1..]);
    }
  }

  lemma LockInv(st: State, s: Session, names: seq<Name>)
    requires Inv(st)
    ensures Inv(ApplyLock(st, s, names))
  {
    assert CanStart(st, s) ==> s < st.nextSession;
    hide Inv, Acquire, Lockable;
    if CanStart(st, s) {
      AcquireInv(st, s, names);
    }
  }

  // ---------------------------------------------------------------- watches

  lemma WatchWatches(st: State, n: Name, r: string)
    requires OkWatches(st.objs, st.registry, st.watches, st.nextTask) && IsOwned(st.objs, st.registry, n)
    ensures var table := if n in st.watches then st.watches[n] else map[];
            OkWatches(st.objs, st.registry, st.watches[n := table[r := st.nextTask]], st.nextTask + 1)
  {
    hide IsOwned;
    var table := if n in st.watches then st.watches[n] else map[];
    assert r in table[r := st.nextTask];
  }

  lemma WatchGuards(st: State, o: ObjId, n: Name, r: string, low: Option<real>, high: Option<real>)
    requires OkGuards(st.registry, st.watches, st.guards, st.nextTask)
    requires OkWatches(st.objs, st.registry, st.watches, st.nextTask)
    requires n in st.registry && st.registry[n] == o && (n in st.watches ==> r !in st.watches[n])
    ensures var table := if n in st.watches then st.watches[n] else map[];
            OkGuards(st.registry, st.watches[n := table[r := st.nextTask]],
                     st.guards[st.nextTask := Guard(o, n, r, low, high, Sleeping)], st.nextTask + 1)
  {
    var table := if n in st.watches then st.watches[n] else map[];
    var watches := st.watches[n := table[r := st.nextTask]];
    var guards := st.guards[st.nextTask := Guard(o, n, r, low, high, Sleeping)];
    forall t | t in guards ensures t < st.nextTask + 1 && Listed(st.registry, watches, t, guards[t]) {
      if t != st.nextTask {
        assert Listed(st.registry, st.watches, t, st.guards[t]);
      }
    }
  }

  lemma StartGuardInv(st: State, o: ObjId, n: Name, r: string, low: Option<real>, high: Option<real>)
    requires Inv(st) && n in st.registry && st.registry[n] == o && IsOwned(st.objs, st.registry, n)
    ensures Inv(StartGuard(st, o, n, r, low, high))
  {
    hide StopGuard, OkObjects, OkRegistry, OkHealth, OkCommand, OkSessions, OkKeys, OkSubs, OkWatches, OkGuards;
    StopGuardInv(st, n, r);
    var a := StopGuard(st, n, r);
    WatchWatches(a, n, r);
    WatchGuards(a, o, n, r, low, high);
  }

  lemma WatchInv(st: State, s: Session, n: Name, r: string, low: Option<real>, high: Option<real>)
    requires Inv(st)
    ensures Inv(ApplyWatch(st, s, n, r, low, high))
  {
    hide Inv, StartGuard;
    if CanStart(st, s) && OwnedBy(st, n, s) {
      StartGuardInv(st, st.registry[n], n, r, low, high);
    }
  }

  lemma SetMeas(st: State, meas: map<string, Meas>)
    requires Inv(st)
    ensures Inv(st.(meas := meas))
  {
    hide OkObjects, OkRegistry, OkWatches, OkGuards, OkHealth, OkCommand, OkSessions, OkKeys, OkSubs;
  }

  lemma UnwatchInv(st: State, s: Session, n: Name, r: string)
    requires Inv(st)
    ensures Inv(ApplyUnwatch(st, s, n, r))
  {
    hide Inv, StopGuard, MarkStale;
    StopGuardInv(st, n, r);
    SetMeas(StopGuard(st, n, r), MarkStale(st.meas, n, r));
  }

  lemma UnwatchInstrumentInv(st: State, s: Session, n: Name)
    requires Inv(st)
    ensures Inv(ApplyUnwatchInstrument(st, s, n))
  {
    hide Inv, InvalidateSpec, TasksAt;
    StopGuardsInv(st, n);
    SetMeas(StopGuards(st, n), InvalidateSpec(st.meas, n));
  }

  /** The tables of the instruments a session owns, and their tasks. */
  lemma UnwatchMany(st: State, mine: set<Name>)
    requires TablesOk(st)
    ensures OkWatches(st.objs, st.registry, st.watches - mine, st.nextTask)
    ensures var tasks := set n, r | n in mine && n in st.watches && r in st.watches[n] :: st.watches[n][r];
            OkGuards(st.registry, st.watches - mine, st.guards - tasks, st.nextTask)
  {
    var tasks := set n, r | n in mine && n in st.watches && r in st.watches[n] :: st.watches[n][r];
    forall t | t in st.guards - tasks ensures Listed(st.registry, st.watches - mine, t, st.guards[t]) {
      assert Listed(st.registry, st.watches, t, st.guards[t]);
    }
  }

  lemma UnwatchAllInv(st: State, s: Session)
    requires Inv(st)
    ensures Inv(ApplyUnwatchAll(st, s))
  {
    var b := ApplyUnwatchAll(st, s);
    var mine := set n | n in st.watches && OwnedBy(st, n, s);
    UnwatchMany(st, mine);
    if CanStart(st, s) {
      var tasks := set n, r | n in mine && r in st.watches[n] :: st.watches[n][r];
      assert tasks == set n, r | n in mine && n in st.watches && r in st.watches[n] :: st.watches[n][r];
      assert b == st.(watches := st.watches - mine, guards := st.guards - tasks, meas := b.meas);
      hide OkObjects, OkRegistry, OkWatches, OkGuards, OkHealth, OkCommand, OkSessions, OkKeys, OkSubs, ApplyUnwatchAll;
    }
  }

  // ---------------------------------------------------------------- sessions

  lemma ConnectInv(st: State)
    requires Inv(st)
    ensures Inv(ApplyConnect(st))
  {
    hide OkRegistry, OkWatches, OkGuards, OkHealth, StoreHistory.Consistent;
  }

  /** Only the session that acts can become an owner of a key. */
  lemma StepOwners(db: Db, op: StoreHistory.Op, s: Session)
    ensures var b := StoreHistory.Step(db, op, Some(s));
            forall k :: k in b.owners ==> b.owners[k] == s || (k in db.owners && db.owners[k] == b.owners[k])
  {
    hide Reserved;
    match op
    case Set(key, value, nx, xx, ro) =>
    case MSet(pairs) => PutAllOwners(db, pairs);
    case Delete(keys) => DropAllOwners(db, keys);
    case Flush => FlushOwners(db, db.order, Some(s));
    case Release =>
  }

  lemma {:induction false} PutAllOwners(db: Db, pairs: seq<(string, string)>)
    ensures PutAll(db, pairs).owners == db.owners
    decreases |pairs|
  {
    if pairs != [] {
      PutAllOwners(PutSpec(db, pairs[0].0, pairs[0].1), pairs[1..]);
    }
  }

  lemma {:induction false} DropAllOwners(db: Db, keys: seq<string>)
    ensures var b := DropAll(db, keys).1; forall k :: k in b.owners ==> k in db.owners && db.owners[k] == b.owners[k]
    decreases |keys|
  {
    if keys != [] {
      DropAllOwners(if keys[0] in db.data then Drop(db, keys[0]) else db, keys[1..]);
    }
  }

  lemma {:induction false} FlushOwners(db: Db, keys: seq<string>, who: Option<Session>)
    ensures var b := FlushKeys(db, keys, who);
            forall k :: k in b.owners ==> k in db.owners && db.owners[k] == b.owners[k]
    decreases |keys|
  {
    hide Untouchable;
    if keys != [] {
      FlushOwners(if Untouchable(db, keys[0], who) then db else Drop(db, keys[0]), keys[1..], who);
    }
  }

  lemma KeyOperationInv(st: State, s: Session, op: StoreHistory.Op)
    requires Inv(st)
    ensures Inv(ApplyKeyOperation(st, s, op))
  {
    if CanStart(st, s) && !op.Release? {
      StoreHistory.StepConsistent(st.db, op, Some(s));
      StepOwners(st.db, op, s);
      hide StoreHistory.Step, StoreHistory.Consistent, OkObjects, OkRegistry, OkWatches, OkGuards, OkHealth, OkCommand,
        OkSessions, OkSubs;
    }
  }

  lemma SubsInv(st: State, subs: set<(Session, string)>)
    requires Inv(st) && forall sub :: sub in subs ==> sub in st.subs || sub.0 in st.live
    ensures Inv(st.(subs := subs))
  {
    hide OkObjects, OkRegistry, OkWatches, OkGuards, OkHealth, OkCommand, OkSessions, OkKeys;
  }

  lemma StartCloseInv(st: State, s: Session, names: seq<Name>)
    requires Inv(st)
    ensures Inv(ApplyStartClose(st, s, names))
  {
    hide StoreHistory.Consistent, OkObjects, OkRegistry, OkWatches, OkGuards, OkHealth, Listing;
  }

  /** The cleanup of `s` moves on within its loop. */
  lemma SetReleasing(st: State, s: Session, names: seq<Name>)
    requires Inv(st) && s in st.closing && st.closing[s].Releasing?
    ensures Inv(st.(closing := st.closing[s := Releasing(names)]))
  {
    hide StoreHistory.Consistent, OkObjects, OkRegistry, OkWatches, OkGuards, OkHealth, OkCommand;
  }

  lemma CloseNextInv(st: State, s: Session, safe: bool)
    requires Inv(st)
    ensures Inv(ApplyCloseNext(st, s, safe))
  {
    if s in st.closing && st.closing[s].Releasing? && st.closing[s].names != [] {
      var names := st.closing[s].names;
      assert s !in st.live;
      if st.command.Some? {
        CommandSession(st);
      }
      hide Inv, Release, OwnedBy;
      if names[0] !in st.registry {
        SetReleasing(st, s, []);
      } else if OwnedBy(st, names[0], s) {
        ReleaseInv(st, names[0], s, safe);
        SetReleasing(Release(st, names[0], safe), s, names[1..]);
      } else {
        SetReleasing(st, s, names[1..]);
      }
    }
  }

  lemma CloseKeysInv(st: State, s: Session)
    requires Inv(st)
    ensures Inv(ApplyCloseKeys(st, s))
  {
    hide StoreHistory.Consistent, OkObjects, OkRegistry, OkWatches, OkGuards, OkHealth, OkCommand;
    if s in st.closing && st.closing[s] == Releasing([]) {
      StoreHistory.StepConsistent(st.db, StoreHistory.Release, Some(s));
    }
  }

  lemma FinishCloseInv(st: State, s: Session)
    requires Inv(st)
    ensures Inv(ApplyFinishClose(st, s))
  {
    hide StoreHistory.Consistent, OkObjects, OkRegistry, OkWatches, OkGuards, OkHealth, OkCommand;
  }

  // ---------------------------------------------------------------- every step, every run

  lemma BeginUnlockInv(st: State, step: Step)
    requires Inv(st) && (step.BeginUnlock? || step.UnlockRaises?)
    ensures Inv(ApplyOwnership(st, step))
  {
    if st.command.Some? {
      CommandSession(st);
    }
    hide Inv, Listing, ApplyAdd, ApplyRemove, ApplyLock, ApplyUnlockNext;
    var b := ApplyOwnership(st, step);
    if b != st {
      SetCommand(st, b.command);
    }
  }

  lemma OwnershipInv(st: State, step: Step)
    requires Inv(st) && IsOwnership(step)
    ensures Inv(ApplyOwnership(st, step))
  {
    hide Inv, ApplyAdd, ApplyRemove, ApplyLock, ApplyBeginUnlock, ApplyUnlockNext, ApplyUnlockRaises;
    if step.AddInstrument? {
      AddInv(st, step.name, step.monitored, step.connects);
    } else if step.RemoveInstrument? {
      RemoveInv(st, step.name);
    } else if step.LockInstruments? {
      LockInv(st, step.session, step.names);
    } else if step.UnlockNext? {
      UnlockNextInv(st, step.safe);
    } else {
      BeginUnlockInv(st, step);
    }
  }

  lemma WatchingInv(st: State, step: Step)
    requires Inv(st) && IsWatching(step)
    ensures Inv(ApplyWatching(st, step))
  {
    hide Inv, ApplyWatch, ApplyUnwatch, ApplyUnwatchInstrument, ApplyUnwatchAll;
    if step.Watch? {
      WatchInv(st, step.session, step.name, step.resource, step.low, step.high);
    } else if step.Unwatch? {
      UnwatchInv(st, step.session, step.name, step.resource);
    } else if step.UnwatchInstrument? {
      UnwatchInstrumentInv(st, step.session, step.name);
    } else {
      UnwatchAllInv(st, step.session);
    }
  }

  lemma ClosingInv(st: State, step: Step)
    requires Inv(st) && IsClosing(step)
    ensures Inv(ApplyClosing(st, step))
  {
    hide Inv, ApplyStartClose, ApplyCloseNext, ApplyCloseKeys, ApplyFinishClose;
    if step.StartClose? {
      StartCloseInv(st, step.session, step.names);
    } else if step.CloseNext? {
      CloseNextInv(st, step.session, step.safe);
    } else if step.CloseKeys? {
      CloseKeysInv(st, step.session);
    } else {
      FinishCloseInv(st, step.session);
    }
  }

  lemma SubscriptionInv(st: State, s: Session, channel: string)
    requires Inv(st)
    ensures Inv(ApplySubscribe(st, s, channel)) && Inv(ApplyUnsubscribe(st, s, channel))
    ensures Inv(ApplyDrop(st, s, channel))
  {
    hide Inv, Events.IsValidChannel;
    SubsInv(st, ApplySubscribe(st, s, channel).subs);
    SubsInv(st, ApplyUnsubscribe(st, s, channel).subs);
    SubsInv(st, ApplyDrop(st, s, channel).subs);
  }

  lemma ClientInv(st: State, step: Step)
    requires Inv(st) && IsClient(step)
    ensures Inv(ApplyClient(st, step))
  {
    hide Inv, ApplyConnect, ApplyKeyOperation, ApplySubscribe, ApplyUnsubscribe, ApplyDrop;
    if step.Connect? {
      ConnectInv(st);
    } else if step.KeyOperation? {
      KeyOperationInv(st, step.session, step.op);
    } else {
      SubscriptionInv(st, step.session, step.channel);
    }
  }

  /** Every step keeps the invariant. */
  lemma StepInv(st: State, step: Step)
    requires Inv(st)
    ensures Inv(Apply(st, step))
  {
    assert CommandOk(st);
    hide Inv, Calm, CommandOk, ApplyLifecycle, ApplyUse, ApplyBackground, ApplyOwnership, ApplyWatching, ApplyClosing,
      ApplyClient;
    if IsLifecycle(step) {
      LifecycleCalm(st, step);
      CalmKeepsInv(st, ApplyLifecycle(st, step));
    } else if IsUse(step) {
      UseCalm(st, step);
      CalmKeepsInv(st, ApplyUse(st, step));
    } else if IsBackground(step) {
      BackgroundCalm(st, step);
      CalmKeepsInv(st, ApplyBackground(st, step));
    } else if IsOwnership(step) {
      OwnershipInv(st, step);
    } else if IsWatching(step) {
      WatchingInv(st, step);
    } else if IsClosing(step) {
      ClosingInv(st, step);
    } else {
      ClientInv(st, step);
    }
  }

  /** The invariant holds in every state of every run. */
  lemma {:induction false} ReachableInv(run: seq<Step>, i: int)
    ensures Inv(At(run, i))
    decreases i
  {
    hide Apply, Inv;
    if i <= 0 {
      InitInv();
    } else {
      ReachableInv(run, i - 1);
      if i <= |run| {
        StepInv(At(run, i - 1), run[i - 1]);
      }
    }
  }

  lemma InitInv()
    ensures Inv(INIT)
  {
  }
}
