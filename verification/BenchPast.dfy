/**
 * What a state of the bench owes to the run behind it: its keys are those of the store after the
 * accepted key commands, its resources and guards those of the calls that found them.
 */
module BenchPast {
  import opened Wrappers
  import opened Store
  import opened Bench
  import opened BenchFrames
  import opened BenchInvariant
  import opened BenchEvents
  import opened BenchSafety
  import opened BenchGuards
  import opened BenchMeasurements
  import opened BenchCalls
  import StoreHistory
  import StoreWrites

  // ---------------------------------------------------------------- keys

  /** The store operations of a step: a key command that may start, or the end of a session's keys. */
  function KeyOps(st: State, step: Step): StoreWrites.Trace {
    match step
    case KeyOperation(s, op) => if CanStart(st, s) && !op.Release? then [(op, Some(s))] else []
    case CloseKeys(s) =>
      if s in st.closing && st.closing[s] == Releasing([]) then [(StoreHistory.Release, Some(s))] else []
    case _ => []
  }

  /** The store operations of the first `i` steps. */
  function KeyTrace(run: seq<Step>, i: int): StoreWrites.Trace
    decreases i
  {
    if i <= 0 then [] else KeyTrace(run, i - 1) + if i <= |run| then KeyOps(At(run, i - 1), StepAt(run, i - 1)) else []
  }

  lemma StepKeys(st: State, step: Step)
    ensures Apply(st, step).db == StoreHistory.Run(st.db, KeyOps(st, step))
  {
    hide Apply, StoreHistory.Step, StoreHistory.Run, ApplyConnect, ApplySubscribe, ApplyUnsubscribe, ApplyDrop,
      ApplyStartClose, ApplyCloseNext, ApplyFinishClose, ReleaseSpec;
    RunNone(st.db);
    if step.KeyOperation? {
      ClientIs(st, step);
      StoreWrites.RunOne(st.db, step.op, Some(step.session));
    } else if step.CloseKeys? {
      ClosingIs(st, step);
      StoreWrites.RunOne(st.db, StoreHistory.Release, Some(step.session));
      ReleaseIsStep(st.db, step.session);
    } else {
      Frame(st, step);
    }
  }

  lemma RunNone(db: Db)
    ensures StoreHistory.Run(db, []) == db
  {
  }

  lemma ReleaseIsStep(db: Db, s: Session)
    ensures StoreHistory.Step(db, StoreHistory.Release, Some(s)) == ReleaseSpec(db, s)
  {
    hide ReleaseSpec;
  }

  /**
   * The store is at all times what the accepted key commands and the ends of sessions make of the empty one,
   * so everything that holds over histories of the store holds for the bench.
   */
  lemma {:induction false} KeysAreHistory(run: seq<Step>, i: int)
    ensures At(run, i).db == StoreHistory.Run(EMPTY_DB, KeyTrace(run, i))
    decreases i
  {
    hide Apply, StoreHistory.Run, KeyOps;
    RunNone(EMPTY_DB);
    if i > 0 {
      KeysAreHistory(run, i - 1);
      if i <= |run| {
        StepKeys(At(run, i - 1), run[i - 1]);
        StoreWrites.RunAppend(EMPTY_DB, KeyTrace(run, i - 1), KeyOps(At(run, i - 1), run[i - 1]));
      } else {
        assert KeyTrace(run, i) == KeyTrace(run, i - 1);
      }
    }
  }

  // ---------------------------------------------------------------- resources

  /** Instrument `o` has these resources. */
  predicate HasResources(st: State, o: ObjId, resources: seq<string>) {
    o in st.objs && st.objs[o].resources == resources
  }

  /** The step at `x` takes the resources of `o` away: a release or a reset. */
  ghost predicate ClearsAt(run: seq<Step>, x: int, o: ObjId) {
    ResetsAt(run, x, o) || exists s, safe :: ReleasesAt(run, x, o, s, safe)
  }

  /** The last init of `o` before `i` found these resources, and no release or reset came behind it. */
  ghost predicate FoundBefore(run: seq<Step>, i: int, x: int, o: ObjId, found: seq<string>) {
    0 <= x < i && CompletesAt(run, x, o) && FoundAt(run, x) == found
    && forall y :: x < y < i ==> !CompletesAt(run, y, o) && !ClearsAt(run, y, o)
  }

  lemma ResourcesStep(run: seq<Step>, x: int, o: ObjId, resources: seq<string>)
    requires 0 <= x && HasResources(At(run, x), o, resources)
    ensures CompletesAt(run, x, o) ==> HasResources(At(run, x + 1), o, FoundAt(run, x))
    ensures !CompletesAt(run, x, o) && ClearsAt(run, x, o) ==> HasResources(At(run, x + 1), o, [])
    ensures !CompletesAt(run, x, o) && !ClearsAt(run, x, o) ==> HasResources(At(run, x + 1), o, resources)
  {
    hide At, ChangeAt, LocksAt, ReleasesAt, CompletesAt, ResetsAt, FoundAt;
    EffectAt(run, x, o);
    ChangeIs(run, x, o);
  }

  /** The change at `x` by its causes. */
  lemma ChangeIs(run: seq<Step>, x: int, o: ObjId)
    ensures CompletesAt(run, x, o) ==> ChangeAt(run, x, o) == Completed(FoundAt(run, x))
    ensures ClearsAt(run, x, o) ==> ChangeAt(run, x, o).WasReset? || ChangeAt(run, x, o).Released?
  {
    hide At, Locks, OwnedBy, Spoils, FoundAt, ReleasesAt, ResetsAt, CompletesAt, ChangeAt;
    ReleaseIs(run, x, o, 0, false);
    if s, safe :| ReleasesAt(run, x, o, s, safe) {
      ReleaseIs(run, x, o, s, safe);
    }
    ResetIs(run, x, o);
  }

  lemma ResetIs(run: seq<Step>, x: int, o: ObjId)
    ensures ResetsAt(run, x, o) ==> ChangeAt(run, x, o) == WasReset
  {
    hide At, Locks, OwnedBy, Spoils;
  }

  lemma NewIsEmpty(run: seq<Step>, x: int, o: ObjId)
    requires 0 <= x && o !in At(run, x).objs && o in At(run, x + 1).objs
    ensures HasResources(At(run, x + 1), o, [])
  {
    hide At, Apply, OkRegistry, TablesOk, OkHealth, CommandOk, OkSessions, OkKeys, OkSubs;
    ReachableInv(run, x);
    ReachableInv(run, x + 1);
    AtStep(run, x);
    Frame(At(run, x), StepAt(run, x));
    AddIsEmpty(At(run, x), StepAt(run, x));
  }

  lemma AddIsEmpty(st: State, step: Step)
    ensures step.AddInstrument? && Apply(st, step).nextObj != st.nextObj ==>
              Apply(st, step).nextObj == st.nextObj + 1 && HasResources(Apply(st, step), st.nextObj, [])
  {
    hide Apply, ApplyRemove, ApplyLock, ApplyBeginUnlock, ApplyUnlockNext, ApplyUnlockRaises;
    if step.AddInstrument? {
      OwnershipIs(st, step);
    }
  }

  /** The resources of an instrument are those that its last init found, and none after a release or reset. */
  lemma {:induction false} ResourcesAreFound(run: seq<Step>, i: int, o: ObjId, resources: seq<string>)
    requires HasResources(At(run, i), o, resources)
    ensures resources == [] || exists x :: FoundBefore(run, i, x, o, resources)
    decreases i
  {
    hide At, CompletesAt, ClearsAt, FoundAt, HasResources;
    NothingBefore(run, i, o, resources);
    var x := i - 1;
    if !InstrumentAt(run, x, o) {
      NoInstrument(run, x, o, resources);
    } else {
      var before := SomeResources(At(run, x), o);
      ResourcesStep(run, x, o, before);
      OneList(At(run, i), o, resources);
      if CompletesAt(run, x, o) {
        assert FoundBefore(run, i, x, o, FoundAt(run, x));
      } else if !ClearsAt(run, x, o) {
        ResourcesAreFound(run, x, o, before);
        if y :| FoundBefore(run, x, y, o, before) {
          assert FoundBefore(run, i, y, o, before);
        }
      }
    }
  }

  predicate InstrumentAt(run: seq<Step>, x: int, o: ObjId) {
    o in At(run, x).objs
  }

  lemma SomeResources(st: State, o: ObjId) returns (resources: seq<string>)
    requires o in st.objs
    ensures HasResources(st, o, resources)
  {
    resources := st.objs[o].resources;
  }

  lemma NoInstrument(run: seq<Step>, x: int, o: ObjId, resources: seq<string>)
    requires 0 <= x && !InstrumentAt(run, x, o) && HasResources(At(run, x + 1), o, resources)
    ensures resources == []
  {
    hide At;
    NewIsEmpty(run, x, o);
  }

  lemma OneList(st: State, o: ObjId, resources: seq<string>)
    requires HasResources(st, o, resources)
    ensures forall other :: HasResources(st, o, other) ==> other == resources
  {
  }

  lemma NothingBefore(run: seq<Step>, i: int, o: ObjId, resources: seq<string>)
    requires HasResources(At(run, i), o, resources)
    ensures 0 < i
  {
    hide Apply;
  }

  // ---------------------------------------------------------------- guards

  /** Where a guard task was started. */
  lemma {:induction false} TaskStart(run: seq<Step>, i: int, t: TaskId) returns (y: int)
    requires t in At(run, i).guards
    ensures 0 <= y < i && y < |run| && t !in At(run, y).guards && t in At(run, y + 1).guards
    decreases i
  {
    hide Apply;
    if t in At(run, i - 1).guards {
      y := TaskStart(run, i - 1, t);
    } else {
      y := i - 1;
    }
  }

  /** Session `s` watches resource `r` of instrument `n`. */
  predicate Watches(step: Step, s: Session, n: Name, r: string) {
    step.Watch? && step.session == s && step.name == n && step.resource == r
  }

  lemma GuardFrom(st: State, step: Step, t: TaskId)
    returns (o: ObjId, s: Session, n: Name, r: string, found: seq<string>)
    requires Inv(st) && t !in st.guards && t in Apply(st, step).guards
    ensures Watches(step, s, n, r) && Names(st, n, o) && HasStatus(st, o, Ready) && HasOwner(st, o, Some(s))
    ensures HasResources(st, o, found) && r in found && Alive(Apply(st, step), n, r, t)
  {
    hide Apply, Inv;
    var g := SomeGuard(Apply(st, step), t);
    GuardStartsIff(st, step, t, g);
    o, s, n, r := g.obj, step.session, step.name, step.resource;
    found := SomeResources(st, o);
  }

  lemma SomeGuard(st: State, t: TaskId) returns (g: Guard)
    requires t in st.guards
    ensures Guards(st, t, g)
  {
    g := st.guards[t];
  }

  /**
   * Whatever is guarded was found: for every live guard there is the IWATCH of the instrument's owner that
   * started it, when the instrument was READY, and before it the init that found the resource, with no
   * release or reset between the two.
   */
  lemma GuardedIsFound(run: seq<Step>, i: int, n: Name, r: string, t: TaskId)
    returns (x: int, y: int, o: ObjId, s: Session, found: seq<string>)
    requires 0 <= i && Alive(At(run, i), n, r, t)
    ensures 0 <= x < y < i && y < |run| && FoundBefore(run, y, x, o, found) && r in found
    ensures Watches(StepAt(run, y), s, n, r) && Names(At(run, y), n, o)
    ensures HasStatus(At(run, y), o, Ready) && HasOwner(At(run, y), o, Some(s))
  {
    hide At, Apply, Inv, FoundBefore, CompletesAt, ClearsAt, FoundAt;
    y := TaskStart(run, i, t);
    ReachableInv(run, y);
    AtStep(run, y);
    var m, q;
    o, s, m, q, found := GuardFrom(At(run, y), StepAt(run, y), t);
    GuardLivesIff(run, y + 1, i, m, q, t);
    ResourcesAreFound(run, y, o, found);
    x :| FoundBefore(run, y, x, o, found);
    FoundIn(run, y, x, o, found);
  }

  lemma FoundIn(run: seq<Step>, y: int, x: int, o: ObjId, found: seq<string>)
    requires FoundBefore(run, y, x, o, found)
    ensures 0 <= x < y
  {
    hide At, CompletesAt, ClearsAt, FoundAt;
  }
}
