/**
 * The bench as a step system: instruments, sessions, the one command in flight, guard tasks,
 * health tasks, measurement entries and disconnect cleanups (testcore/instruments.py, commands.py,
 * watch.py, health.py, server.py).
 *
 * `Apply` takes one atomic piece of code between two suspension points; a step that is not
 * possible in a state leaves it unchanged. A driver call is a start step and a return step with
 * any outcome. Cancelling a task removes it. Commands run one at a time (`command`), but guard
 * steps, health steps and cleanup steps may come in between.
 */
module Bench {
  import opened Wrappers
  import opened Store
  import opened Text
  import Events
  import StoreHistory

  type Name = string
  type ObjId = nat
  type TaskId = nat

  datatype Status = Idle | Locked | Ready | Unresponsive | Fault

  /** An instrument object; identity is the `ObjId` it is stored under. */
  datatype Instrument = Instrument(
    name: Name, status: Status, owner: Option<Session>, resources: seq<string>, failures: nat)

  /** How a driver call ends: a result, a DriverError, another exception, or the watchdog. */
  datatype Outcome = Returned(text: string) | Refused(text: string) | Crashed(text: string) | TimedOut

  /**
   * Where a guard's loop is suspended: asleep, in the driver's read, before its trip, or in the
   * middle of writing an event, with the number of subscriptions there were when the writing began.
   */
  datatype Phase =
    | Sleeping
    | Reading
    | Noting(size: nat, verdict: Option<string>)
    | Tripping(text: string)
    | NotingTrip(size: nat)
    | Announcing(size: nat)

  /** A live guard task with the object it captured. */
  datatype Guard = Guard(
    obj: ObjId, name: Name, resource: string, low: Option<real>, high: Option<real>, phase: Phase)

  datatype HealthPhase = Waiting | Asking | Declaring(size: nat)

  datatype HealthTask = HealthTask(obj: ObjId, phase: HealthPhase)

  /** The command that holds the dispatch lock, as far as it is spread over several steps. */
  datatype Command =
    | Unlocking(session: Session, names: seq<Name>, all: bool)
    | Initing(session: Session, obj: ObjId, calls: nat)
    | Aligning(session: Session, names: seq<Name>, current: Option<ObjId>)
    | Using(session: Session, pending: seq<ObjId>, running: seq<ObjId>, mark: Option<(Name, string)>)
    | Pinging(session: Session, obj: ObjId)

  /** The stages of `ClientHandler.close`: the unlock loop, then the subscriptions. */
  datatype Closing = Releasing(names: seq<Name>) | Unsubscribing

  datatype State = State(
    objs: map<ObjId, Instrument>,
    registry: map<Name, ObjId>,
    watches: map<Name, map<string, TaskId>>,
    guards: map<TaskId, Guard>,
    health: map<Name, HealthTask>,
    meas: map<string, Meas>,
    db: Db,
    subs: set<(Session, string)>,
    command: Option<Command>,
    live: set<Session>,
    closing: map<Session, Closing>,
    nextObj: nat,
    nextTask: nat,
    nextSession: nat)

  const INIT := State(map[], map[], map[], map[], map[], map[], EMPTY_DB, {}, None, {}, map[], 0, 0, 1)

  datatype Step =
    | Connect
    | AddInstrument(name: Name, monitored: bool, connects: bool)
    | RemoveInstrument(name: Name)
    | LockInstruments(session: Session, names: seq<Name>)
    | BeginUnlock(session: Session, names: seq<Name>, all: bool)
    | UnlockNext(safe: bool)
    | UnlockRaises
    | BeginInit(session: Session, name: Name, configured: bool)
    | InitReturn(outcome: Outcome, found: seq<string>)
    | BeginAlign(session: Session, names: seq<Name>)
    | AlignNext
    | AlignReturn(outcome: Outcome, found: seq<string>)
    | Reset(session: Session, name: Name, connects: bool)
    | BeginUse(session: Session, names: seq<Name>)
    | BeginRead(session: Session, args: seq<string>, marked: bool)
    | UseStart(index: nat)
    | UseReturn(index: nat, outcome: Outcome)
    | UseDone
    | BeginPing(session: Session, name: Name)
    | PingReturn(outcome: Outcome)
    | Watch(session: Session, name: Name, resource: string, low: Option<real>, high: Option<real>)
    | Unwatch(session: Session, name: Name, resource: string)
    | UnwatchInstrument(session: Session, name: Name)
    | UnwatchAll(session: Session)
    | GuardTick(task: TaskId)
    | GuardReturn(task: TaskId, outcome: Outcome, number: Option<real>)
    | GuardTrip(task: TaskId)
    | GuardPublish(task: TaskId)
    | HealthTick(name: Name)
    | HealthReturn(name: Name, outcome: Outcome)
    | HealthPublish(name: Name)
    | KeyOperation(session: Session, op: StoreHistory.Op)
    | Subscribe(session: Session, channel: string)
    | Unsubscribe(session: Session, channel: string)
    | DropSubscriber(session: Session, channel: string)
    | StartClose(session: Session, names: seq<Name>)
    | CloseNext(session: Session, safe: bool)
    | CloseKeys(session: Session)
    | FinishClose(session: Session)

  // ---------------------------------------------------------------- building blocks

  /** Session `s` may start a command: it is connected and no command is in flight. */
  predicate CanStart(st: State, s: Session) {
    st.command.None? && s in st.live
  }

  predicate Broken(status: Status) {
    status == Fault || status == Unresponsive
  }

  predicate OwnedBy(st: State, n: Name, s: Session) {
    n in st.registry && st.registry[n] in st.objs && st.objs[st.registry[n]].owner == Some(s)
  }

  function WithStatus(objs: map<ObjId, Instrument>, o: ObjId, status: Status): map<ObjId, Instrument> {
    if o in objs then objs[o := objs[o].(status := status)] else objs
  }

  /** After a call that did not return: only the watchdog changes the state. */
  function AfterFailure(objs: map<ObjId, Instrument>, o: ObjId, outcome: Outcome): map<ObjId, Instrument> {
    if outcome.TimedOut? then WithStatus(objs, o, Unresponsive) else objs
  }

  function TasksOf(table: map<string, TaskId>): (tasks: set<TaskId>)
    ensures forall t :: t in tasks <==> exists r :: r in table && table[r] == t
  {
    set r | r in table :: table[r]
  }

  function TasksAt(watches: map<Name, map<string, TaskId>>, n: Name): set<TaskId> {
    if n in watches then TasksOf(watches[n]) else {}
  }

  /** `WatchManager.stop_instrument`. */
  function StopGuards(st: State, n: Name): (b: State)
    ensures b == st.(guards := b.guards, watches := b.watches)
  {
    st.(guards := st.guards - TasksAt(st.watches, n), watches := st.watches - {n})
  }

  /** `WatchManager.stop`: an instrument's table disappears with its last entry. */
  function StopGuard(st: State, n: Name, r: string): (b: State)
    ensures b == st.(guards := b.guards, watches := b.watches)
  {
    if n in st.watches && r in st.watches[n] then
      var table := st.watches[n] - {r};
      st.(guards := st.guards - {st.watches[n][r]},
          watches := if table == map[] then st.watches - {n} else st.watches[n := table])
    else st
  }

  /** `WatchManager.start`. */
  function StartGuard(st: State, o: ObjId, n: Name, r: string, low: Option<real>, high: Option<real>): (b: State)
    ensures b == st.(guards := b.guards, watches := b.watches, nextTask := st.nextTask + 1)
  {
    var st1 := StopGuard(st, n, r);
    var table := if n in st1.watches then st1.watches[n] else map[];
    st1.(guards := st1.guards[st.nextTask := Guard(o, n, r, low, high, Sleeping)],
         watches := st1.watches[n := table[r := st.nextTask]],
         nextTask := st.nextTask + 1)
  }

  // ---------------------------------------------------------------- registry commands

  /** A new instrument under an unused name. */
  function AddOne(st: State, n: Name, monitored: bool): State {
    var o := st.nextObj;
    st.(objs := st.objs[o := Instrument(n, Idle, None, [], 0)],
        registry := st.registry[n := o],
        health := if monitored then st.health[n := HealthTask(o, Waiting)] else st.health,
        nextObj := o + 1)
  }

  function ApplyAdd(st: State, n: Name, monitored: bool, connects: bool): (b: State)
    ensures b == st.(objs := b.objs, registry := b.registry, health := b.health, nextObj := b.nextObj)
  {
    if st.command.Some? || ' ' in n || n in st.registry || !connects then st else AddOne(st, n, monitored)
  }

  function ApplyRemove(st: State, n: Name): (b: State)
    ensures b == st.(guards := b.guards, watches := b.watches, health := b.health, registry := b.registry)
  {
    if st.command.Some? then st
    else
      st.(guards := st.guards - TasksAt(st.watches, n),
          watches := st.watches - {n},
          health := st.health - {n},
          registry := st.registry - {n})
  }

  /** The check loop of ILOCK for one name. */
  predicate Lockable(st: State, s: Session, n: Name) {
    n in st.registry && st.registry[n] in st.objs
    && (st.objs[st.registry[n]].status == Idle || st.objs[st.registry[n]].owner == Some(s))
  }

  /** The acquire loop of ILOCK for one object. */
  function AcquireOne(st: State, s: Session, o: ObjId): (b: State)
    ensures b == st.(objs := b.objs) && b.objs.Keys == st.objs.Keys
  {
    if o !in st.objs || st.objs[o].owner == Some(s) then st
    else st.(objs := st.objs[o := st.objs[o].(status := Locked, owner := Some(s))])
  }

  function Acquire(st: State, s: Session, names: seq<Name>): (b: State)
    ensures b == st.(objs := b.objs) && b.objs.Keys == st.objs.Keys
    decreases |names|
  {
    if names == [] then st
    else Acquire(if names[0] in st.registry then AcquireOne(st, s, st.registry[names[0]]) else st, s, names[1..])
  }

  function LockAll(st: State, s: Session, names: seq<Name>): (b: State)
    ensures b == st.(objs := b.objs) && b.objs.Keys == st.objs.Keys
  {
    if forall n :: n in names ==> Lockable(st, s, n) then Acquire(st, s, names) else st
  }

  function ApplyLock(st: State, s: Session, names: seq<Name>): (b: State)
    ensures b == st.(objs := b.objs) && b.objs.Keys == st.objs.Keys
  {
    if CanStart(st, s) then LockAll(st, s, names) else st
  }

  /** The release of an instrument by its owner, MEAS entries included. */
  function Release(st: State, n: Name, safe: bool): (b: State)
    ensures b == st.(objs := b.objs, guards := b.guards, watches := b.watches, meas := b.meas)
    ensures b.objs.Keys == st.objs.Keys
  {
    if n !in st.registry || st.registry[n] !in st.objs then st
    else
      var o := st.registry[n];
      st.(guards := st.guards - TasksAt(st.watches, n),
          watches := st.watches - {n},
          objs := st.objs[o := st.objs[o].(status := if safe then Idle else Fault, owner := None, resources := [])],
          meas := InvalidateSpec(st.meas, n))
  }

  /** The turn of `n` in IUNLOCK or in a cleanup, if `n` belongs to the session. */
  function ReleaseOwned(st: State, n: Name, s: Session, safe: bool): (b: State)
    ensures b == st.(objs := b.objs, guards := b.guards, watches := b.watches, meas := b.meas)
    ensures b.objs.Keys == st.objs.Keys
  {
    if OwnedBy(st, n, s) then Release(st, n, safe) else st
  }

  /** Names listed by the registry. */
  predicate Listing(st: State, names: seq<Name>) {
    (forall n :: n in names ==> n in st.registry) && (forall n :: n in st.registry ==> n in names)
  }

  function ApplyBeginUnlock(st: State, s: Session, names: seq<Name>, all: bool): (b: State)
    ensures b == st.(command := b.command)
  {
    if !CanStart(st, s) || (all && !Listing(st, names)) then st
    else st.(command := Some(Unlocking(s, names, all)))
  }

  /** One name of IUNLOCK. The guards of the name are stopped before ownership is checked. */
  function ApplyUnlockNext(st: State, safe: bool): (b: State)
    ensures b == st.(objs := b.objs, guards := b.guards, watches := b.watches, meas := b.meas, command := b.command)
    ensures b.objs.Keys == st.objs.Keys
  {
    if st.command.None? || !st.command.value.Unlocking? then st
    else
      var Unlocking(s, names, all) := st.command.value;
      if names == [] || (names[0] !in st.registry && all) then st.(command := None)
      else if all || OwnedBy(st, names[0], s) then
        ReleaseOwned(st, names[0], s, safe).(command := Some(Unlocking(s, names[1..], all)))
      else StopGuards(st, names[0]).(command := None)
  }

  /** Publishing a release raised: IUNLOCK of a list ends there, IUNLOCK ALL and the cleanup go on. */
  function ApplyUnlockRaises(st: State): (b: State)
    ensures b == st.(command := b.command)
  {
    if st.command.Some? && st.command.value.Unlocking? && !st.command.value.all then st.(command := None) else st
  }

  // ---------------------------------------------------------------- lifecycle commands

  function ApplyBeginInit(st: State, s: Session, n: Name, configured: bool): (b: State)
    ensures b == st.(command := b.command)
  {
    if !CanStart(st, s) || n !in st.registry || st.registry[n] !in st.objs then st
    else
      var o := st.registry[n];
      if st.objs[o].status == Idle || Broken(st.objs[o].status) then st
      else st.(command := Some(Initing(s, o, if configured then 3 else 2)))
  }

  function MarkReady(objs: map<ObjId, Instrument>, o: ObjId, found: seq<string>): map<ObjId, Instrument> {
    if o in objs then objs[o := objs[o].(status := Ready, resources := found)] else objs
  }

  function AfterInitCall(objs: map<ObjId, Instrument>, init: Command, outcome: Outcome, found: seq<string>)
    : map<ObjId, Instrument>
    requires init.Initing?
  {
    if !outcome.Returned? then AfterFailure(objs, init.obj, outcome)
    else if init.calls > 1 then objs
    else MarkReady(objs, init.obj, found)
  }

  function NextInitCall(init: Command, outcome: Outcome): Option<Command>
    requires init.Initing?
  {
    if outcome.Returned? && init.calls > 1 then Some(init.(calls := init.calls - 1)) else None
  }

  /** configure, init and discover in turn; the last one makes the instrument READY, in any state. */
  function ApplyInitReturn(st: State, outcome: Outcome, found: seq<string>): (b: State)
    ensures b == st.(objs := b.objs, command := b.command)
  {
    if st.command.None? || !st.command.value.Initing? then st
    else
      st.(objs := AfterInitCall(st.objs, st.command.value, outcome, found),
          command := NextInitCall(st.command.value, outcome))
  }

  function ApplyBeginAlign(st: State, s: Session, names: seq<Name>): (b: State)
    ensures b == st.(command := b.command)
  {
    if !CanStart(st, s) then st else st.(command := Some(Aligning(s, names, None)))
  }

  /** IALIGN goes on with its first name if that instrument is LOCKED, otherwise it ends. */
  function NextAlign(st: State, s: Session, names: seq<Name>): Option<Command> {
    if names == [] || names[0] !in st.registry || st.registry[names[0]] !in st.objs
       || st.objs[st.registry[names[0]]].status != Locked
    then None
    else Some(Aligning(s, names[1..], Some(st.registry[names[0]])))
  }

  function ApplyAlignNext(st: State): (b: State)
    ensures b == st.(command := b.command)
  {
    if st.command.None? || !st.command.value.Aligning? || st.command.value.current.Some? then st
    else
      st.(command := NextAlign(st, st.command.value.session, st.command.value.names))
  }

  function ApplyAlignReturn(st: State, outcome: Outcome, found: seq<string>): (b: State)
    ensures b == st.(objs := b.objs, command := b.command)
  {
    if st.command.None? || !st.command.value.Aligning? || st.command.value.current.None? then st
    else
      var Aligning(s, names, current) := st.command.value;
      var o := current.value;
      if !outcome.Returned? then st.(objs := AfterFailure(st.objs, o, outcome), command := None)
      else st.(objs := MarkReady(st.objs, o, found), command := Some(Aligning(s, names, None)))
  }

  /** IRESET by any session: FAULT or UNRESPONSIVE to LOCKED if the driver reconnects. */
  function ApplyReset(st: State, s: Session, n: Name, connects: bool): (b: State)
    ensures b == st.(objs := b.objs)
  {
    if !CanStart(st, s) || n !in st.registry || st.registry[n] !in st.objs || !connects then st
    else
      var o := st.registry[n];
      if !Broken(st.objs[o].status) then st
      else st.(objs := st.objs[o := st.objs[o].(status := Locked, resources := [])])
  }

  // ---------------------------------------------------------------- use of an instrument

  /** The instrument and resource named by IREAD's arguments, split at the first colon if any. */
  function ReadTarget(args: seq<string>): (r: Option<(Name, string)>)
    ensures r.Some? ==> ':' !in r.value.0
  {
    if args == [] then None
    else
      var c := FindColon(args[0], 0);
      if c < |args[0]| then
        if c == 0 || c + 1 == |args[0]| then None else Some((args[0][..c], args[0][c + 1..]))
      else if |args| >= 2 then Some((args[0], args[1]))
      else None
  }

  function ObjectsOf(st: State, names: seq<Name>): (r: seq<ObjId>)
    requires forall n :: n in names ==> n in st.registry
    ensures |r| == |names| && forall i :: 0 <= i < |r| ==> r[i] == st.registry[names[i]]
  {
    seq(|names|, i requires 0 <= i < |names| => st.registry[names[i]])
  }

  /** IWRITE, IRAW, ISAVE, ILOAD, IWAIT (one name) and IMREAD (several): owners only. */
  function ApplyBeginUse(st: State, s: Session, names: seq<Name>): (b: State)
    ensures b == st.(command := b.command)
  {
    if !CanStart(st, s) || exists n :: n in names && !OwnedBy(st, n, s) then st
    else st.(command := Some(Using(s, ObjectsOf(st, names), [], None)))
  }

  /** The status of an error in a measurement entry, by the text of the exception. */
  function ErrorStatus(text: string): string {
    if Contains(Lower(text), "timeout") then "TIMEOUT" else "ERROR " + text
  }

  function NotFoundText(n: Name): string {
    "instrument '" + n + "' not found"
  }

  /** The text of what `_check_ready` raises. */
  function NotReadyText(inst: Instrument): string {
    match inst.status
    case Idle => inst.name + " not locked"
    case Locked => inst.name + " requires INIT or ALIGN"
    case Unresponsive => inst.name + " is UNRESPONSIVE, requires INSTRUMENT.RESET"
    case Fault => inst.name + " is FAULT, requires INSTRUMENT.RESET"
    case Ready => ""
  }

  /** IREAD, with the MEAS flag `marked`: an unknown instrument is still noted as an error. */
  function ApplyBeginRead(st: State, s: Session, args: seq<string>, marked: bool): (b: State)
    ensures b == st.(meas := b.meas, command := b.command)
  {
    if !CanStart(st, s) || ReadTarget(args).None? then st
    else
      var (n, r) := ReadTarget(args).value;
      if n !in st.registry then
        st.(meas := if marked then WriteMeasSpec(st.meas, n, r, None, ErrorStatus(NotFoundText(n))) else st.meas)
      else if !OwnedBy(st, n, s) then st
      else st.(command := Some(Using(s, [st.registry[n]], [], if marked then Some((n, r)) else None)))
  }

  /** `_write_meas`, when the MEAS flag is set. */
  function NoteMark(meas: map<string, Meas>, mark: Option<(Name, string)>, value: Option<string>, status: string)
    : map<string, Meas>
  {
    if mark.Some? then WriteMeasSpec(meas, mark.value.0, mark.value.1, value, status) else meas
  }

  function RemoveAt(s: seq<ObjId>, i: nat): (r: seq<ObjId>)
    requires i < |s|
    ensures forall x :: x in r ==> x in s
  {
    s[..i] + s[i + 1..]
  }

  /** `_check_ready`, then the driver call starts. */
  function ApplyUseStart(st: State, index: nat): (b: State)
    ensures b == st.(meas := b.meas, command := b.command)
  {
    if st.command.None? || !st.command.value.Using? || index >= |st.command.value.pending| then st
    else
      var use := st.command.value;
      var o := use.pending[index];
      var ready := o in st.objs && st.objs[o].status == Ready;
      st.(command := Some(use.(pending := RemoveAt(use.pending, index),
                               running := if ready then use.running + [o] else use.running)),
          meas := if ready || o !in st.objs then st.meas
                  else NoteMark(st.meas, use.mark, None, ErrorStatus(NotReadyText(st.objs[o]))))
  }

  function AfterUse(objs: map<ObjId, Instrument>, o: ObjId, outcome: Outcome): map<ObjId, Instrument> {
    match outcome
    case Returned(_) => objs
    case Refused(_) => objs
    case Crashed(_) => WithStatus(objs, o, Fault)
    case TimedOut => WithStatus(objs, o, Unresponsive)
  }

  function UseValue(outcome: Outcome): Option<string> {
    if outcome.Returned? then Some(outcome.text) else None
  }

  function UseStatus(outcome: Outcome): string {
    if outcome.Returned? then "OK" else if outcome.TimedOut? then "TIMEOUT" else ErrorStatus(outcome.text)
  }

  /** `_tracked_call` returns: an exception that is no DriverError makes the instrument FAULT. */
  function ApplyUseReturn(st: State, index: nat, outcome: Outcome): (b: State)
    ensures b == st.(objs := b.objs, meas := b.meas, command := b.command)
  {
    if st.command.None? || !st.command.value.Using? || index >= |st.command.value.running| then st
    else
      var use := st.command.value;
      var o := use.running[index];
      st.(command := Some(use.(running := RemoveAt(use.running, index))),
          objs := AfterUse(st.objs, o, outcome),
          meas := NoteMark(st.meas, use.mark, UseValue(outcome), UseStatus(outcome)))
  }

  function ApplyUseDone(st: State): (b: State)
    ensures b == st.(command := b.command)
  {
    if st.command.Some? && st.command.value.Using? && st.command.value.pending == [] && st.command.value.running == []
    then st.(command := None) else st
  }

  /** IPING needs no lock. */
  function ApplyBeginPing(st: State, s: Session, n: Name): (b: State)
    ensures b == st.(command := b.command)
  {
    if !CanStart(st, s) || n !in st.registry || st.registry[n] !in st.objs || Broken(st.objs[st.registry[n]].status)
    then st
    else st.(command := Some(Pinging(s, st.registry[n])))
  }

  function ApplyPingReturn(st: State, outcome: Outcome): (b: State)
    ensures b == st.(objs := b.objs, command := b.command)
  {
    if st.command.None? || !st.command.value.Pinging? then st
    else st.(objs := AfterFailure(st.objs, st.command.value.obj, outcome), command := None)
  }

  // ---------------------------------------------------------------- guards

  function ApplyWatch(st: State, s: Session, n: Name, r: string, low: Option<real>, high: Option<real>): (b: State)
    ensures b == st.(guards := b.guards, watches := b.watches, nextTask := b.nextTask)
  {
    if !CanStart(st, s) || !OwnedBy(st, n, s) then st
    else
      var o := st.registry[n];
      if st.objs[o].status != Ready || r !in st.objs[o].resources then st
      else StartGuard(st, o, n, r, low, high)
  }

  function MarkStale(meas: map<string, Meas>, n: Name, r: string): map<string, Meas> {
    if MeasKey(n, r) in meas then WriteMeasSpec(meas, n, r, meas[MeasKey(n, r)].value, STALE) else meas
  }

  function ApplyUnwatch(st: State, s: Session, n: Name, r: string): (b: State)
    ensures b == st.(guards := b.guards, watches := b.watches, meas := b.meas)
  {
    if !CanStart(st, s) || n !in st.watches || r !in st.watches[n] then st
    else
      var st1 := StopGuard(st, n, r);
      st1.(meas := MarkStale(st.meas, n, r))
  }

  function UnwatchOne(st: State, n: Name): (b: State)
    ensures b == st.(guards := b.guards, watches := b.watches, meas := b.meas)
  {
    st.(guards := st.guards - TasksAt(st.watches, n),
        watches := st.watches - {n},
        meas := InvalidateSpec(st.meas, n))
  }

  /** IUNWATCH name ALL: no ownership check. */
  function ApplyUnwatchInstrument(st: State, s: Session, n: Name): (b: State)
    ensures b == st.(guards := b.guards, watches := b.watches, meas := b.meas)
  {
    if !CanStart(st, s) then st else UnwatchOne(st, n)
  }

  /** IUNWATCH ALL: every instrument owned by the session. */
  function ApplyUnwatchAll(st: State, s: Session): (b: State)
    ensures b == st.(guards := b.guards, watches := b.watches, meas := b.meas)
  {
    if !CanStart(st, s) then st
    else
      var mine := set n | n in st.watches && OwnedBy(st, n, s);
      var tasks := set n, r | n in mine && r in st.watches[n] :: st.watches[n][r];
      st.(watches := st.watches - mine,
          guards := st.guards - tasks,
          meas := map k | k in st.meas ::
            if exists n :: n in st.registry && OwnedBy(st, n, s) && MeasPrefix(n) <= k
            then st.meas[k].(status := STALE) else st.meas[k])
  }

  predicate Violates(number: Option<real>, low: Option<real>, high: Option<real>) {
    number.Some? && ((low.Some? && number.value < low.value) || (high.Some? && number.value > high.value))
  }

  // ---------------------------------------------------------------- events in the middle

  /** The subscriptions stored under a base channel. */
  function Audience(subs: set<(Session, string)>, base: string): nat {
    |set sub | sub in subs && Events.ParseChannel(sub.1).0 == base|
  }

  /** Publishing writes to somebody, so that other code can run before it goes on. */
  predicate Awaits(subs: set<(Session, string)>, base: string, key: Option<string>) {
    exists sub :: sub in subs && Events.ParseChannel(sub.1).0 == base && Events.Admits(Events.Sub(sub.0, sub.1), key)
  }

  function AfterVerdict(verdict: Option<string>): Phase {
    if verdict.Some? then Tripping(verdict.value) else Sleeping
  }

  /** The measurement event of a read. */
  function NotePhase(subs: set<(Session, string)>, n: Name, r: string, verdict: Option<string>): Phase {
    if Awaits(subs, "meas", Some(n + ":" + r)) then Noting(Audience(subs, "meas"), verdict) else AfterVerdict(verdict)
  }

  /** The instrument event of a trip. */
  function AnnouncePhase(subs: set<(Session, string)>): Phase {
    if Awaits(subs, "instrument", None) then Announcing(Audience(subs, "instrument")) else Sleeping
  }

  /** The measurement event of a trip, and the instrument event behind it. */
  function TripPhase(subs: set<(Session, string)>, n: Name, r: string): Phase {
    if Awaits(subs, "meas", Some(n + ":" + r)) then NotingTrip(Audience(subs, "meas")) else AnnouncePhase(subs)
  }

  /** The set that is being written to has changed its size, so the writing raises. */
  predicate Disturbed(subs: set<(Session, string)>, phase: Phase) {
    match phase
    case Noting(size, _) => Audience(subs, "meas") != size
    case NotingTrip(size) => Audience(subs, "meas") != size
    case Announcing(size) => Audience(subs, "instrument") != size
    case _ => false
  }

  function PublishedPhase(subs: set<(Session, string)>, phase: Phase): Phase {
    match phase
    case Noting(_, verdict) => AfterVerdict(verdict)
    case NotingTrip(_) => AnnouncePhase(subs)
    case Announcing(_) => Sleeping
    case _ => phase
  }

  function WithPhase(guards: map<TaskId, Guard>, t: TaskId, phase: Phase): map<TaskId, Guard> {
    if t in guards then guards[t := guards[t].(phase := phase)] else guards
  }

  /**
   * A guard goes on after writing an event; if a subscription came or went meanwhile, the loop is
   * left by the exception and the entry stays listed without a task.
   */
  function PublishedGuards(guards: map<TaskId, Guard>, subs: set<(Session, string)>, t: TaskId): map<TaskId, Guard> {
    if t !in guards then guards
    else if Disturbed(subs, guards[t].phase) then guards - {t}
    else WithPhase(guards, t, PublishedPhase(subs, guards[t].phase))
  }

  function ApplyGuardPublish(st: State, t: TaskId): (b: State)
    ensures b == st.(guards := b.guards)
  {
    st.(guards := PublishedGuards(st.guards, st.subs, t))
  }

  function ApplyGuardTick(st: State, t: TaskId): (b: State)
    ensures b == st.(guards := b.guards)
  {
    if t in st.guards && st.guards[t].phase.Sleeping? && st.guards[t].obj in st.objs
       && st.objs[st.guards[t].obj].status == Ready
    then st.(guards := WithPhase(st.guards, t, Reading)) else st
  }

  /** The read of a guard returns; a crash ends the task but leaves its entry listed. */
  function ApplyGuardReturn(st: State, t: TaskId, outcome: Outcome, number: Option<real>): (b: State)
    ensures b == st.(objs := b.objs, guards := b.guards, meas := b.meas)
  {
    if t !in st.guards || !st.guards[t].phase.Reading? then st
    else
      var g := st.guards[t];
      if outcome.Crashed? then st.(guards := st.guards - {t})
      else
        var verdict := if outcome.Returned? && Violates(number, g.low, g.high) then Some(outcome.text) else None;
        st.(guards := WithPhase(st.guards, t, NotePhase(st.subs, g.name, g.resource, verdict)),
            objs := AfterFailure(st.objs, g.obj, outcome),
            meas := if outcome.Returned? then WriteMeasSpec(st.meas, g.name, g.resource, Some(outcome.text), "OK")
                    else WriteMeasSpec(st.meas, g.name, g.resource, None, "ERROR"))
  }

  /** `_guard_trip`: safe_state is tried, and the instrument is FAULT either way. */
  function ApplyGuardTrip(st: State, t: TaskId): (b: State)
    ensures b == st.(objs := b.objs, guards := b.guards, meas := b.meas)
  {
    if t !in st.guards || !st.guards[t].phase.Tripping? then st
    else
      var g := st.guards[t];
      st.(guards := WithPhase(st.guards, t, TripPhase(st.subs, g.name, g.resource)),
          objs := WithStatus(st.objs, g.obj, Fault),
          meas := WriteMeasSpec(st.meas, g.name, g.resource, Some(g.phase.text), "GUARD_FAULT"))
  }

  // ---------------------------------------------------------------- health

  function ApplyHealthTick(st: State, n: Name): (b: State)
    ensures b == st.(health := b.health)
  {
    if n in st.health && st.health[n].phase.Waiting? && st.health[n].obj in st.objs
       && !Broken(st.objs[st.health[n].obj].status)
    then st.(health := st.health[n := st.health[n].(phase := Asking)]) else st
  }

  /** A failed ping counts; the third in a row, or a timeout, makes the instrument UNRESPONSIVE. */
  function AfterPing(inst: Instrument, outcome: Outcome): Instrument {
    if outcome.Returned? then inst.(failures := 0)
    else inst.(failures := inst.failures + 1,
               status := if outcome.TimedOut? || inst.failures + 1 >= 3 then Unresponsive else inst.status)
  }

  /** The health loop itself declares the instrument UNRESPONSIVE, and says so in an event. */
  predicate Declares(inst: Instrument, outcome: Outcome) {
    !outcome.Returned? && !outcome.TimedOut? && inst.failures + 1 >= 3 && inst.status != Unresponsive
  }

  function DeclarePhase(subs: set<(Session, string)>, inst: Instrument, outcome: Outcome): HealthPhase {
    if Declares(inst, outcome) && Awaits(subs, "instrument", None) then Declaring(Audience(subs, "instrument"))
    else Waiting
  }

  function ApplyHealthReturn(st: State, n: Name, outcome: Outcome): (b: State)
    ensures b == st.(objs := b.objs, health := b.health)
  {
    if n !in st.health || !st.health[n].phase.Asking? || st.health[n].obj !in st.objs then st
    else
      var o := st.health[n].obj;
      st.(objs := st.objs[o := AfterPing(st.objs[o], outcome)],
          health := st.health[n := st.health[n].(phase := DeclarePhase(st.subs, st.objs[o], outcome))])
  }

  /** The event is written; if a subscription came or went meanwhile, the health loop ends. */
  function PublishedHealth(health: map<Name, HealthTask>, subs: set<(Session, string)>, n: Name)
    : map<Name, HealthTask>
  {
    if n !in health || !health[n].phase.Declaring? then health
    else if Audience(subs, "instrument") != health[n].phase.size then health - {n}
    else health[n := health[n].(phase := Waiting)]
  }

  function ApplyHealthPublish(st: State, n: Name): (b: State)
    ensures b == st.(health := b.health)
  {
    st.(health := PublishedHealth(st.health, st.subs, n))
  }

  // ---------------------------------------------------------------- sessions

  function ApplyConnect(st: State): (b: State)
    ensures b == st.(live := b.live, nextSession := b.nextSession)
  {
    st.(live := st.live + {st.nextSession}, nextSession := st.nextSession + 1)
  }

  function ApplySubscribe(st: State, s: Session, channel: string): (b: State)
    ensures b == st.(subs := b.subs)
  {
    if CanStart(st, s) && Events.IsValidChannel(channel) then st.(subs := st.subs + {(s, channel)}) else st
  }

  function ApplyUnsubscribe(st: State, s: Session, channel: string): (b: State)
    ensures b == st.(subs := b.subs)
  {
    if CanStart(st, s) then st.(subs := st.subs - {(s, channel)}) else st
  }

  /** The transport of a subscriber is found broken while an event is written to it. */
  function ApplyDrop(st: State, s: Session, channel: string): (b: State)
    ensures b == st.(subs := b.subs)
  {
    st.(subs := st.subs - {(s, channel)})
  }

  function ApplyKeyOperation(st: State, s: Session, op: StoreHistory.Op): (b: State)
    ensures b == st.(db := b.db)
  {
    if !CanStart(st, s) || op.Release? then st
    else st.(db := StoreHistory.Step(st.db, op, Some(s)))
  }

  /** `close` begins: the session is gone, a command of its own is cancelled. */
  function ApplyStartClose(st: State, s: Session, names: seq<Name>): (b: State)
    ensures b == st.(live := b.live, closing := b.closing, command := b.command)
  {
    if s !in st.live || !Listing(st, names) then st
    else
      st.(live := st.live - {s},
          closing := st.closing[s := Releasing(names)],
          command := if st.command.Some? && st.command.value.session == s then None else st.command)
  }

  /** One name of the cleanup loop; a name that is no longer registered ends the loop. */
  function ApplyCloseNext(st: State, s: Session, safe: bool): (b: State)
    ensures b == st.(objs := b.objs, guards := b.guards, watches := b.watches, meas := b.meas, closing := b.closing)
    ensures b.objs.Keys == st.objs.Keys
  {
    if s !in st.closing || !st.closing[s].Releasing? || st.closing[s].names == [] then st
    else
      var names := st.closing[s].names;
      if names[0] !in st.registry then st.(closing := st.closing[s := Releasing([])])
      else ReleaseOwned(st, names[0], s, safe).(closing := st.closing[s := Releasing(names[1..])])
  }

  function ApplyCloseKeys(st: State, s: Session): (b: State)
    ensures b == st.(db := b.db, closing := b.closing)
  {
    if s in st.closing && st.closing[s] == Releasing([])
    then st.(db := ReleaseSpec(st.db, s), closing := st.closing[s := Unsubscribing]) else st
  }

  function ApplyFinishClose(st: State, s: Session): (b: State)
    ensures b == st.(subs := b.subs, closing := b.closing)
  {
    if s in st.closing && st.closing[s].Unsubscribing?
    then st.(subs := (set sub | sub in st.subs && sub.0 != s), closing := st.closing - {s}) else st
  }

  // ---------------------------------------------------------------- the step function

  predicate IsLifecycle(step: Step) {
    step.BeginInit? || step.InitReturn? || step.BeginAlign? || step.AlignNext? || step.AlignReturn? || step.Reset?
    || step.BeginPing? || step.PingReturn?
  }

  predicate IsUse(step: Step) {
    step.BeginUse? || step.BeginRead? || step.UseStart? || step.UseReturn? || step.UseDone?
  }

  /** Steps of guards and health tasks. */
  predicate IsBackground(step: Step) {
    step.GuardTick? || step.GuardReturn? || step.GuardTrip? || step.GuardPublish? || step.HealthTick?
    || step.HealthReturn? || step.HealthPublish?
  }

  predicate IsOwnership(step: Step) {
    step.AddInstrument? || step.RemoveInstrument? || step.LockInstruments? || step.BeginUnlock? || step.UnlockNext?
    || step.UnlockRaises?
  }

  predicate IsWatching(step: Step) {
    step.Watch? || step.Unwatch? || step.UnwatchInstrument? || step.UnwatchAll?
  }

  predicate IsClosing(step: Step) {
    step.StartClose? || step.CloseNext? || step.CloseKeys? || step.FinishClose?
  }

  predicate IsClient(step: Step) {
    step.Connect? || step.KeyOperation? || step.Subscribe? || step.Unsubscribe? || step.DropSubscriber?
  }

  function ApplyLifecycle(st: State, step: Step): State {
    match step
    case BeginInit(s, n, configured) => ApplyBeginInit(st, s, n, configured)
    case InitReturn(outcome, found) => ApplyInitReturn(st, outcome, found)
    case BeginAlign(s, names) => ApplyBeginAlign(st, s, names)
    case AlignNext => ApplyAlignNext(st)
    case AlignReturn(outcome, found) => ApplyAlignReturn(st, outcome, found)
    case Reset(s, n, connects) => ApplyReset(st, s, n, connects)
    case BeginPing(s, n) => ApplyBeginPing(st, s, n)
    case PingReturn(outcome) => ApplyPingReturn(st, outcome)
    case _ => st
  }

  function ApplyUse(st: State, step: Step): State {
    match step
    case BeginUse(s, names) => ApplyBeginUse(st, s, names)
    case BeginRead(s, args, marked) => ApplyBeginRead(st, s, args, marked)
    case UseStart(index) => ApplyUseStart(st, index)
    case UseReturn(index, outcome) => ApplyUseReturn(st, index, outcome)
    case UseDone => ApplyUseDone(st)
    case _ => st
  }

  function ApplyBackground(st: State, step: Step): State {
    match step
    case GuardTick(t) => ApplyGuardTick(st, t)
    case GuardReturn(t, outcome, number) => ApplyGuardReturn(st, t, outcome, number)
    case GuardTrip(t) => ApplyGuardTrip(st, t)
    case GuardPublish(t) => ApplyGuardPublish(st, t)
    case HealthTick(n) => ApplyHealthTick(st, n)
    case HealthReturn(n, outcome) => ApplyHealthReturn(st, n, outcome)
    case HealthPublish(n) => ApplyHealthPublish(st, n)
    case _ => st
  }

  function ApplyOwnership(st: State, step: Step): State {
    match step
    case AddInstrument(n, monitored, connects) => ApplyAdd(st, n, monitored, connects)
    case RemoveInstrument(n) => ApplyRemove(st, n)
    case LockInstruments(s, names) => ApplyLock(st, s, names)
    case BeginUnlock(s, names, all) => ApplyBeginUnlock(st, s, names, all)
    case UnlockNext(safe) => ApplyUnlockNext(st, safe)
    case UnlockRaises => ApplyUnlockRaises(st)
    case _ => st
  }

  function ApplyWatching(st: State, step: Step): State {
    match step
    case Watch(s, n, r, low, high) => ApplyWatch(st, s, n, r, low, high)
    case Unwatch(s, n, r) => ApplyUnwatch(st, s, n, r)
    case UnwatchInstrument(s, n) => ApplyUnwatchInstrument(st, s, n)
    case UnwatchAll(s) => ApplyUnwatchAll(st, s)
    case _ => st
  }

  function ApplyClient(st: State, step: Step): State {
    match step
    case Connect => ApplyConnect(st)
    case KeyOperation(s, op) => ApplyKeyOperation(st, s, op)
    case Subscribe(s, channel) => ApplySubscribe(st, s, channel)
    case Unsubscribe(s, channel) => ApplyUnsubscribe(st, s, channel)
    case DropSubscriber(s, channel) => ApplyDrop(st, s, channel)
    case _ => st
  }

  function ApplyClosing(st: State, step: Step): State {
    match step
    case StartClose(s, names) => ApplyStartClose(st, s, names)
    case CloseNext(s, safe) => ApplyCloseNext(st, s, safe)
    case CloseKeys(s) => ApplyCloseKeys(st, s)
    case FinishClose(s) => ApplyFinishClose(st, s)
    case _ => st
  }

  function Apply(st: State, step: Step): State {
    if IsLifecycle(step) then ApplyLifecycle(st, step)
    else if IsUse(step) then ApplyUse(st, step)
    else if IsBackground(step) then ApplyBackground(st, step)
    else if IsOwnership(step) then ApplyOwnership(st, step)
    else if IsWatching(step) then ApplyWatching(st, step)
    else if IsClosing(step) then ApplyClosing(st, step)
    else ApplyClient(st, step)
  }

  /** The step at `x`; outside the run nothing happens, whatever stands for it here. */
  function StepAt(run: seq<Step>, x: int): Step {
    if 0 <= x < |run| then run[x] else UseDone
  }

  /** The state of a run after its first `i` steps; before the first step and after the last nothing happens. */
  function At(run: seq<Step>, i: int): State
    decreases i
  {
    if i <= 0 then INIT else if i <= |run| then Apply(At(run, i - 1), run[i - 1]) else At(run, i - 1)
  }

  // ---------------------------------------------------------------- what is said about one instrument

  predicate HasStatus(st: State, o: ObjId, status: Status) {
    o in st.objs && st.objs[o].status == status
  }

  predicate HasOwner(st: State, o: ObjId, owner: Option<Session>) {
    o in st.objs && st.objs[o].owner == owner
  }
}
