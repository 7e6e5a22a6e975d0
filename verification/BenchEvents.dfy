/**
 * The events in the life of one instrument object, and the exact list of what a step can do to its
 * state and owner.
 */
module BenchEvents {
  import opened Wrappers
  import opened Store
  import opened Bench
  import opened BenchFrames
  import opened BenchInvariant

  // ---------------------------------------------------------------- events

  /** `o` is one of the instruments named. */
  ghost predicate Named(st: State, names: seq<Name>, o: ObjId) {
    exists n :: n in names && n in st.registry && st.registry[n] == o
  }

  /** A successful ILOCK by `t` that names `o`. */
  ghost predicate Locks(st: State, step: Step, o: ObjId, t: Session) {
    step.LockInstruments? && step.session == t && CanStart(st, t)
    && (forall n :: n in step.names ==> Lockable(st, t, n)) && Named(st, step.names, o)
  }

  /** The instrument whose turn it is in IUNLOCK or in the cleanup of a disconnected session. */
  function ReleaseTarget(st: State, step: Step): Option<(Name, Session)> {
    match step
    case UnlockNext(_) =>
      if st.command.Some? && st.command.value.Unlocking? && st.command.value.names != []
      then Some((st.command.value.names[0], st.command.value.session)) else None
    case CloseNext(s, _) =>
      if s in st.closing && st.closing[s].Releasing? && st.closing[s].names != []
      then Some((st.closing[s].names[0], s)) else None
    case _ => None
  }

  /** Owner `s` releases `o`, by IUNLOCK or by disconnecting; `safe` tells if safe_state returned. */
  ghost predicate Releases(st: State, step: Step, o: ObjId, s: Session, safe: bool) {
    var target := ReleaseTarget(st, step);
    && target.Some? && target.value.1 == s && OwnedBy(st, target.value.0, s) && st.registry[target.value.0] == o
    && safe == if step.UnlockNext? then step.safe else step.CloseNext? && step.safe
  }

  /** The last driver call of an IINIT or IALIGN on `o` returns. */
  ghost predicate Completes(st: State, step: Step, o: ObjId) {
    st.command.Some?
    && ((step.InitReturn? && step.outcome.Returned? && st.command.value.Initing? && st.command.value.obj == o
         && st.command.value.calls <= 1)
        || (step.AlignReturn? && step.outcome.Returned? && st.command.value.Aligning?
            && st.command.value.current == Some(o)))
  }

  /** A successful IRESET of `o`. */
  ghost predicate Resets(st: State, step: Step, o: ObjId) {
    step.Reset? && CanStart(st, step.session) && step.connects && step.name in st.registry
    && st.registry[step.name] == o && o in st.objs && Broken(st.objs[o].status)
  }

  /** Session `s` starts a driver call on `o` that only its owner may start, in READY. */
  ghost predicate Uses(st: State, step: Step, o: ObjId, s: Session) {
    step.UseStart? && st.command.Some? && st.command.value.Using? && st.command.value.session == s
    && step.index < |st.command.value.pending| && st.command.value.pending[step.index] == o
    && o in st.objs && st.objs[o].status == Ready
  }

  // ---------------------------------------------------------------- effects

  datatype Change =
    | Same
    | Acquired(session: Session)
    | Released(session: Session, safe: bool)
    | Completed(found: seq<string>)
    | WasReset
    | Degraded(to: Status)
    | Pinged(failures: nat, broken: bool)

  /** The object that the driver call of the command in flight is made on. */
  function Called(st: State): Option<ObjId> {
    if st.command.None? then None
    else
      match st.command.value
      case Initing(_, o, _) => Some(o)
      case Aligning(_, _, current) => current
      case Pinging(_, o) => Some(o)
      case _ => None
  }

  /** The health task of `n` is waiting for the answer of `o`. */
  predicate Answers(st: State, n: Name, o: ObjId) {
    n in st.health && st.health[n].phase.Asking? && st.health[n].obj == o && o in st.objs
  }

  /** The change leaves the instrument FAULT or UNRESPONSIVE by a call that fails or by a trip. */
  predicate Breaks(change: Change) {
    change.Degraded? || (change.Pinged? && change.broken)
  }

  /** A driver call ends in a way that makes `o` FAULT or UNRESPONSIVE, or a guard of it trips. */
  predicate Spoils(st: State, step: Step, o: ObjId) {
    match step
    case InitReturn(outcome, _) => outcome.TimedOut? && Called(st) == Some(o) && st.command.value.Initing?
    case AlignReturn(outcome, _) => outcome.TimedOut? && Called(st) == Some(o) && st.command.value.Aligning?
    case PingReturn(outcome) => outcome.TimedOut? && Called(st) == Some(o) && st.command.value.Pinging?
    case UseReturn(i, outcome) =>
      (outcome.TimedOut? || outcome.Crashed?) && st.command.Some? && st.command.value.Using?
      && i < |st.command.value.running| && st.command.value.running[i] == o
    case GuardReturn(t, outcome, _) =>
      outcome.TimedOut? && t in st.guards && st.guards[t].phase.Reading? && st.guards[t].obj == o
    case GuardTrip(t) => t in st.guards && st.guards[t].phase.Tripping? && st.guards[t].obj == o
    case HealthReturn(n, outcome) =>
      Answers(st, n, o) && (outcome.TimedOut? || (!outcome.Returned? && st.objs[o].failures + 1 >= 3))
    case _ => false
  }

  /** The release that `step` is for `o`, if it is one. */
  ghost function ReleaseBy(st: State, step: Step, o: ObjId): Change {
    var target := ReleaseTarget(st, step);
    if target.Some? && OwnedBy(st, target.value.0, target.value.1) && st.registry[target.value.0] == o then
      Released(target.value.1, if step.UnlockNext? then step.safe else step.CloseNext? && step.safe)
    else Same
  }

  /** What `step` does to `o`. */
  ghost function ChangeBy(st: State, step: Step, o: ObjId): Change {
    if step.LockInstruments? then
      if Locks(st, step, o, step.session) && !HasOwner(st, o, Some(step.session)) then Acquired(step.session) else Same
    else if step.UnlockNext? || step.CloseNext? then ReleaseBy(st, step, o)
    else if (step.InitReturn? || step.AlignReturn?) && Completes(st, step, o) then Completed(step.found)
    else if step.Reset? then if Resets(st, step, o) then WasReset else Same
    else if step.HealthReturn? then
      if Answers(st, step.name, o) then
        Pinged(if step.outcome.Returned? then 0 else st.objs[o].failures + 1, Spoils(st, step, o))
      else Same
    else if Spoils(st, step, o) then
      Degraded(if step.GuardTrip? || (step.UseReturn? && step.outcome.Crashed?) then Fault else Unresponsive)
    else Same
  }

  /** The change tells how `o` differs between `a` and `b`. */
  ghost predicate Changed(a: State, b: State, o: ObjId, change: Change) {
    o in a.objs && o in b.objs
    && var x, y := a.objs[o], b.objs[o];
       match change
       case Same => y == x
       case Acquired(t) => x.status == Idle && x.owner == None && y == x.(status := Locked, owner := Some(t))
       case Released(s, safe) =>
         x.owner == Some(s) && y == x.(status := if safe then Idle else Fault, owner := None, resources := [])
       case Completed(found) => y == x.(status := Ready, resources := found)
       case WasReset => Broken(x.status) && y == x.(status := Locked, resources := [])
       case Degraded(to) => Broken(to) && y == x.(status := to)
       case Pinged(failures, broken) =>
         y == x.(failures := failures, status := if broken then Unresponsive else x.status)
  }

  // ---------------------------------------------------------------- step by step

  lemma InitReturnEffect(st: State, outcome: Outcome, found: seq<string>, o: ObjId)
    ensures o in st.objs ==>
              Changed(st, ApplyInitReturn(st, outcome, found), o, ChangeBy(st, InitReturn(outcome, found), o))
  {
    hide NextInitCall;
  }

  lemma AlignReturnEffect(st: State, outcome: Outcome, found: seq<string>, o: ObjId)
    ensures o in st.objs ==>
              Changed(st, ApplyAlignReturn(st, outcome, found), o, ChangeBy(st, AlignReturn(outcome, found), o))
  {
    hide Locks, ReleaseBy, Resets, HasOwner;
  }

  lemma ResetEffect(st: State, s: Session, n: Name, connects: bool, o: ObjId)
    ensures o in st.objs ==> Changed(st, ApplyReset(st, s, n, connects), o, ChangeBy(st, Reset(s, n, connects), o))
  {
  }

  lemma PingReturnEffect(st: State, outcome: Outcome, o: ObjId)
    ensures o in st.objs ==> Changed(st, ApplyPingReturn(st, outcome), o, ChangeBy(st, PingReturn(outcome), o))
  {
    hide Locks, ReleaseBy, Resets, Completes, HasOwner;
  }

  /** Steps that leave the objects alone. */
  lemma QuietChange(st: State, step: Step, b: State, o: ObjId)
    ensures !ChangesObjs(step) ==> ChangeBy(st, step, o) == Same
    ensures o in st.objs && b.objs == st.objs ==> Changed(st, b, o, Same)
  {
  }

  lemma LifecycleEffect(st: State, step: Step, o: ObjId)
    ensures IsLifecycle(step) && o in st.objs ==> Changed(st, ApplyLifecycle(st, step), o, ChangeBy(st, step, o))
  {
    hide Changed, ChangeBy, ApplyBeginInit, ApplyInitReturn, ApplyBeginAlign, ApplyAlignNext, ApplyAlignReturn,
      ApplyReset, ApplyBeginPing, ApplyPingReturn;
    if step.InitReturn? {
      InitReturnEffect(st, step.outcome, step.found, o);
    } else if step.AlignReturn? {
      AlignReturnEffect(st, step.outcome, step.found, o);
    } else if step.Reset? {
      ResetEffect(st, step.session, step.name, step.connects, o);
    } else if step.PingReturn? {
      PingReturnEffect(st, step.outcome, o);
    } else {
      QuietChange(st, step, ApplyLifecycle(st, step), o);
    }
  }

  lemma UseReturnEffect(st: State, index: nat, outcome: Outcome, o: ObjId)
    ensures o in st.objs ==>
              Changed(st, ApplyUseReturn(st, index, outcome), o, ChangeBy(st, UseReturn(index, outcome), o))
  {
    hide NoteMark, RemoveAt, UseValue, UseStatus;
  }

  lemma UseEffect(st: State, step: Step, o: ObjId)
    ensures IsUse(step) && o in st.objs ==> Changed(st, ApplyUse(st, step), o, ChangeBy(st, step, o))
  {
    hide Changed, ChangeBy, ApplyBeginUse, ApplyBeginRead, ApplyUseStart, ApplyUseReturn, ApplyUseDone;
    if step.UseReturn? {
      UseReturnEffect(st, step.index, step.outcome, o);
    } else {
      QuietChange(st, step, ApplyUse(st, step), o);
    }
  }

  lemma GuardReturnEffect(st: State, t: TaskId, outcome: Outcome, number: Option<real>, o: ObjId)
    ensures o in st.objs ==>
              Changed(st, ApplyGuardReturn(st, t, outcome, number), o, ChangeBy(st, GuardReturn(t, outcome, number), o))
  {
    hide WriteMeasSpec, Violates, NotePhase, WithPhase;
  }

  lemma GuardTripEffect(st: State, t: TaskId, o: ObjId)
    ensures o in st.objs ==> Changed(st, ApplyGuardTrip(st, t), o, ChangeBy(st, GuardTrip(t), o))
  {
    hide WriteMeasSpec, TripPhase, WithPhase;
  }

  lemma HealthReturnEffect(st: State, n: Name, outcome: Outcome, o: ObjId)
    ensures o in st.objs ==>
              Changed(st, ApplyHealthReturn(st, n, outcome), o, ChangeBy(st, HealthReturn(n, outcome), o))
  {
    hide DeclarePhase;
  }

  lemma BackgroundEffect(st: State, step: Step, o: ObjId)
    ensures IsBackground(step) && o in st.objs ==> Changed(st, ApplyBackground(st, step), o, ChangeBy(st, step, o))
  {
    hide Changed, ChangeBy, ApplyGuardTick, ApplyGuardReturn, ApplyGuardTrip, ApplyGuardPublish, ApplyHealthTick,
      ApplyHealthReturn, ApplyHealthPublish;
    if step.GuardReturn? {
      GuardReturnEffect(st, step.task, step.outcome, step.number, o);
    } else if step.GuardTrip? {
      GuardTripEffect(st, step.task, o);
    } else if step.HealthReturn? {
      HealthReturnEffect(st, step.name, step.outcome, o);
    } else {
      QuietChange(st, step, ApplyBackground(st, step), o);
    }
  }

  /** What the acquire loop does to one object. */
  lemma {:induction false} AcquireEffect(st: State, s: Session, names: seq<Name>, o: ObjId)
    requires o in st.objs
    ensures o in Acquire(st, s, names).objs
    ensures Acquire(st, s, names).objs[o] ==
            if Named(st, names, o) && st.objs[o].owner != Some(s)
            then st.objs[o].(status := Locked, owner := Some(s)) else st.objs[o]
    decreases |names|
  {
    if names != [] {
      var next := if names[0] in st.registry then AcquireOne(st, s, st.registry[names[0]]) else st;
      NamedSplit(st, next, names, o);
      AcquireEffect(next, s, names[1..], o);
    }
  }

  lemma NamedSplit(st: State, next: State, names: seq<Name>, o: ObjId)
    requires names != [] && next.registry == st.registry
    ensures Named(st, names, o) <==>
              (names[0] in st.registry && st.registry[names[0]] == o) || Named(next, names[1..], o)
  {
    assert forall n :: n in names <==> n == names[0] || n in names[1..];
  }

  lemma LockEffect(st: State, s: Session, names: seq<Name>, o: ObjId)
    requires Inv(st)
    ensures o in st.objs ==>
              Changed(st, ApplyLock(st, s, names), o, ChangeBy(st, LockInstruments(s, names), o))
  {
    hide OkRegistry, TablesOk, OkHealth, CommandOk, OkSessions, OkKeys, OkSubs, Acquire, OwnedBy;
    if o in st.objs && CanStart(st, s) && forall n :: n in names ==> Lockable(st, s, n) {
      AcquireEffect(st, s, names, o);
    }
  }

  lemma ReleaseObject(st: State, n: Name, safe: bool, o: ObjId)
    ensures o in st.objs ==>
              o in Release(st, n, safe).objs
              && Release(st, n, safe).objs[o] ==
                   if n in st.registry && st.registry[n] == o
                   then st.objs[o].(status := if safe then Idle else Fault, owner := None, resources := [])
                   else st.objs[o]
  {
    hide InvalidateSpec, TasksAt;
  }

  lemma TurnEffect(st: State, n: Name, s: Session, safe: bool, o: ObjId)
    ensures o in st.objs ==>
              Changed(st, ReleaseOwned(st, n, s, safe), o,
                if OwnedBy(st, n, s) && st.registry[n] == o then Released(s, safe) else Same)
    ensures OwnedBy(st, n, s) ==> n in st.registry
  {
    hide Release;
    ReleaseObject(st, n, safe, o);
  }

  lemma UnlockNextEffect(st: State, safe: bool, o: ObjId)
    ensures o in st.objs ==> Changed(st, ApplyUnlockNext(st, safe), o, ReleaseBy(st, UnlockNext(safe), o))
  {
    hide ReleaseOwned, StopGuards, OwnedBy;
    if st.command.Some? && st.command.value.Unlocking? && st.command.value.names != [] {
      TurnEffect(st, st.command.value.names[0], st.command.value.session, safe, o);
    }
  }

  lemma CloseNextEffect(st: State, s: Session, safe: bool, o: ObjId)
    ensures o in st.objs ==> Changed(st, ApplyCloseNext(st, s, safe), o, ReleaseBy(st, CloseNext(s, safe), o))
  {
    hide ReleaseOwned, OwnedBy;
    if s in st.closing && st.closing[s].Releasing? && st.closing[s].names != [] {
      TurnEffect(st, st.closing[s].names[0], s, safe, o);
    }
  }

  lemma AddEffect(st: State, n: Name, monitored: bool, connects: bool, o: ObjId)
    requires Inv(st)
    ensures o in st.objs ==> Changed(st, ApplyAdd(st, n, monitored, connects), o, Same)
  {
    hide OkRegistry, TablesOk, OkHealth, CommandOk, OkSessions, OkKeys, OkSubs;
  }

  lemma OwnershipEffect(st: State, step: Step, o: ObjId)
    requires Inv(st)
    ensures IsOwnership(step) && o in st.objs ==> Changed(st, ApplyOwnership(st, step), o, ChangeBy(st, step, o))
  {
    assert step.UnlockNext? ==> ChangeBy(st, step, o) == ReleaseBy(st, step, o);
    assert step.AddInstrument? ==> ChangeBy(st, step, o) == Same;
    hide Inv, Changed, ChangeBy, ReleaseBy, ApplyAdd, ApplyRemove, ApplyLock, ApplyBeginUnlock, ApplyUnlockNext,
      ApplyUnlockRaises;
    if step.LockInstruments? {
      LockEffect(st, step.session, step.names, o);
    } else if step.UnlockNext? {
      UnlockNextEffect(st, step.safe, o);
    } else if step.AddInstrument? {
      AddEffect(st, step.name, step.monitored, step.connects, o);
    } else {
      QuietChange(st, step, ApplyOwnership(st, step), o);
    }
  }

  lemma QuietEffect(st: State, step: Step, o: ObjId)
    ensures !ChangesObjs(step) && o in st.objs ==> Changed(st, Apply(st, step), o, ChangeBy(st, step, o))
  {
    hide Apply, Changed, ChangeBy;
    Frame(st, step);
    QuietChange(st, step, Apply(st, step), o);
  }

  lemma ClosingEffect(st: State, step: Step, o: ObjId)
    requires step.CloseNext?
    ensures o in st.objs ==> Changed(st, ApplyClosing(st, step), o, ChangeBy(st, step, o))
  {
    hide ApplyCloseNext, Changed, ReleaseBy, Locks, Spoils;
    CloseNextEffect(st, step.session, step.safe, o);
  }

  /** Every step does to every instrument what `ChangeBy` says, and nothing else. */
  lemma Effect(st: State, step: Step, o: ObjId)
    requires Inv(st)
    ensures o in st.objs ==> Changed(st, Apply(st, step), o, ChangeBy(st, step, o))
  {
    hide Inv, Changed, ChangeBy, ApplyLifecycle, ApplyUse, ApplyBackground, ApplyOwnership, ApplyWatching, ApplyClosing,
      ApplyClient;
    if IsLifecycle(step) {
      LifecycleEffect(st, step, o);
    } else if IsUse(step) {
      UseEffect(st, step, o);
    } else if IsBackground(step) {
      BackgroundEffect(st, step, o);
    } else if IsOwnership(step) {
      OwnershipEffect(st, step, o);
    } else if step.CloseNext? {
      ClosingEffect(st, step, o);
    } else {
      QuietEffect(st, step, o);
    }
  }

  /** IADD makes an IDLE instrument. */
  lemma AddIsIdle(st: State, step: Step)
    ensures step.AddInstrument? && Apply(st, step).nextObj != st.nextObj ==>
              Apply(st, step).nextObj == st.nextObj + 1 && HasStatus(Apply(st, step), st.nextObj, Idle)
  {
    hide Apply;
    if step.AddInstrument? {
      OwnershipIs(st, step);
      hide ApplyRemove, ApplyLock, ApplyBeginUnlock, ApplyUnlockNext, ApplyUnlockRaises;
    }
  }

  // ---------------------------------------------------------------- events in a run

  lemma AtStep(run: seq<Step>, x: int)
    ensures 0 <= x < |run| ==> At(run, x + 1) == Apply(At(run, x), StepAt(run, x))
    ensures |run| <= x ==> At(run, x + 1) == At(run, x)
    ensures At(run, 0) == INIT
  {
    hide Apply;
  }

  ghost predicate LocksAt(run: seq<Step>, x: int, o: ObjId, t: Session) {
    0 <= x < |run| && Locks(At(run, x), StepAt(run, x), o, t)
  }

  ghost predicate ReleasesAt(run: seq<Step>, x: int, o: ObjId, s: Session, safe: bool) {
    0 <= x < |run| && Releases(At(run, x), StepAt(run, x), o, s, safe)
  }

  /** The resources that the call which returns at `x` has found. */
  function FoundAt(run: seq<Step>, x: int): seq<string> {
    var step := StepAt(run, x);
    if step.InitReturn? || step.AlignReturn? then step.found else []
  }

  ghost predicate CompletesAt(run: seq<Step>, x: int, o: ObjId) {
    0 <= x < |run| && Completes(At(run, x), StepAt(run, x), o)
  }

  ghost predicate ResetsAt(run: seq<Step>, x: int, o: ObjId) {
    0 <= x < |run| && Resets(At(run, x), StepAt(run, x), o)
  }

  ghost predicate UsesAt(run: seq<Step>, x: int, o: ObjId, s: Session) {
    0 <= x < |run| && Uses(At(run, x), StepAt(run, x), o, s)
  }

  /** What the step at `x` does to `o`. */
  ghost function ChangeAt(run: seq<Step>, x: int, o: ObjId): Change {
    if 0 <= x < |run| then ChangeBy(At(run, x), StepAt(run, x), o) else Same
  }

  /** The event behind a change. */
  ghost predicate Caused(run: seq<Step>, x: int, o: ObjId, change: Change) {
    match change
    case Acquired(t) => LocksAt(run, x, o, t)
    case Released(s, safe) => ReleasesAt(run, x, o, s, safe)
    case Completed(found) => CompletesAt(run, x, o) && FoundAt(run, x) == found
    case WasReset => ResetsAt(run, x, o)
    case _ => true
  }

  lemma CauseOf(run: seq<Step>, x: int, o: ObjId)
    ensures Caused(run, x, o, ChangeAt(run, x, o))
  {
    hide At, Locks, Completes, Resets, OwnedBy, Spoils;
  }

  lemma ReleaseIs(run: seq<Step>, x: int, o: ObjId, s: Session, safe: bool)
    ensures ReleasesAt(run, x, o, s, safe) ==> ChangeAt(run, x, o) == Released(s, safe)
    ensures CompletesAt(run, x, o) ==> ChangeAt(run, x, o) == Completed(FoundAt(run, x))
  {
    hide At, Locks, Resets, OwnedBy, Spoils;
  }

  // ---------------------------------------------------------------- ILOCK is atomic

  /**
   * ILOCK of a list, duplicates included, is all or nothing: it makes every named instrument
   * LOCKED and the session's own, except that it leaves alone those the session owned already, if
   * each is IDLE or the session's own; and otherwise it changes nothing at all.
   */
  lemma LockAllOrNothing(st: State, s: Session, names: seq<Name>)
    requires Inv(st) && CanStart(st, s)
    ensures var b := ApplyLock(st, s, names);
            if forall n :: n in names ==>
                 n in st.registry && (HasStatus(st, st.registry[n], Idle) || HasOwner(st, st.registry[n], Some(s)))
            then (forall n :: n in names ==> OwnedBy(b, n, s))
                 && (forall o :: o in st.objs ==>
                       o in b.objs && b.objs[o] == if Named(st, names, o) && st.objs[o].owner != Some(s)
                                                   then st.objs[o].(status := Locked, owner := Some(s)) else st.objs[o])
            else b == st
  {
    hide Acquire, OkObjects, TablesOk, OkHealth, CommandOk, OkSessions, OkKeys, OkSubs;
    assert forall n :: Lockable(st, s, n) <==>
      n in st.registry && (HasStatus(st, st.registry[n], Idle) || HasOwner(st, st.registry[n], Some(s)));
    if forall n :: n in names ==> Lockable(st, s, n) {
      var b := Acquire(st, s, names);
      forall n | n in names ensures OwnedBy(b, n, s) {
        assert Lockable(st, s, n);
        AcquireEffect(st, s, names, st.registry[n]);
      }
      forall o | o in st.objs
        ensures o in b.objs && b.objs[o] == if Named(st, names, o) && st.objs[o].owner != Some(s)
                                            then st.objs[o].(status := Locked, owner := Some(s)) else st.objs[o]
      {
        AcquireEffect(st, s, names, o);
      }
    }
  }

  // ---------------------------------------------------------------- health pings

  /** The instrument after a series of health pings and nothing else. */
  function AfterPings(inst: Instrument, outcomes: seq<Outcome>): Instrument {
    if outcomes == [] then inst else AfterPing(AfterPings(inst, outcomes[..|outcomes| - 1]), outcomes[|outcomes| - 1])
  }

  /** The number of failed pings at the end of the series; `before` came ahead of it. */
  function Streak(before: nat, outcomes: seq<Outcome>): nat {
    if outcomes == [] then before
    else if outcomes[|outcomes| - 1].Returned? then 0
    else Streak(before, outcomes[..|outcomes| - 1]) + 1
  }

  /** Ping `i` of the series times out or is the third failure in a row, or a later one. */
  predicate Fatal(before: nat, outcomes: seq<Outcome>, i: nat)
    requires i < |outcomes|
  {
    outcomes[i].TimedOut? || (!outcomes[i].Returned? && Streak(before, outcomes[..i + 1]) >= 3)
  }

  /**
   * Pings alone make an instrument UNRESPONSIVE exactly if one of them times out or ends three
   * failures in a row. IRESET does not clear the count: after two or more failures one is enough.
   */
  lemma {:induction false} PingsFatalIff(inst: Instrument, outcomes: seq<Outcome>)
    requires inst.status != Unresponsive
    ensures AfterPings(inst, outcomes).failures == Streak(inst.failures, outcomes)
    ensures AfterPings(inst, outcomes).status == Unresponsive
            <==> exists i :: 0 <= i < |outcomes| && Fatal(inst.failures, outcomes, i)
    ensures AfterPings(inst, outcomes).owner == inst.owner
    decreases |outcomes|
  {
    if outcomes != [] {
      var n := |outcomes| - 1;
      var init := outcomes[..n];
      PingsFatalIff(inst, init);
      assert outcomes[..n + 1] == outcomes;
      forall i | 0 <= i < n ensures Fatal(inst.failures, outcomes, i) <==> Fatal(inst.failures, init, i) {
        assert outcomes[..i + 1] == init[..i + 1];
      }
      assert Fatal(inst.failures, outcomes, n)
             <==> outcomes[n].TimedOut? || (!outcomes[n].Returned? && Streak(inst.failures, init) + 1 >= 3);
    }
  }
}
