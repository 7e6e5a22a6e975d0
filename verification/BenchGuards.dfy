/**
 * What can end a guard, over all runs: which steps take its entry from the table, and which end its
 * task and leave the entry listed.
 */
module BenchGuards {
  import opened Wrappers
  import opened Store
  import opened Bench
  import opened BenchFrames
  import opened BenchInvariant
  import opened BenchEvents

  /** Task `t` is the one listed for resource `r` of instrument `n`. */
  ghost predicate Entry(watches: map<Name, map<string, TaskId>>, n: Name, r: string, t: TaskId) {
    n in watches && r in watches[n] && watches[n][r] == t
  }

  /** Task `t` is alive and guards resource `r` of instrument `n`. */
  predicate Alive(st: State, n: Name, r: string, t: TaskId) {
    t in st.guards && st.guards[t].name == n && st.guards[t].resource == r
  }

  /**
   * The loop of guard `t` is left by an exception: its read raises something that is no DriverError,
   * or a subscription came or went while it was writing an event.
   */
  predicate Crashes(st: State, step: Step, t: TaskId) {
    t in st.guards
    && ((step.GuardReturn? && step.task == t && step.outcome.Crashed? && st.guards[t].phase.Reading?)
        || (step.GuardPublish? && step.task == t && Disturbed(st.subs, st.guards[t].phase)))
  }

  /** IUNLOCK comes to `n` and stops its guards. */
  predicate Unlocks(st: State, n: Name) {
    st.command.Some? && st.command.value.Unlocking? && st.command.value.names != [] && st.command.value.names[0] == n
    && (st.command.value.all ==> OwnedBy(st, n, st.command.value.session))
  }

  /** The cleanup of `s` comes to `n`, which belongs to `s`. */
  predicate Cleans(st: State, s: Session, n: Name) {
    s in st.closing && st.closing[s].Releasing? && st.closing[s].names != [] && st.closing[s].names[0] == n
    && OwnedBy(st, n, s)
  }

  /**
   * `step` takes the entry of resource `r` of instrument `n` from the table: IREMOVE; IUNLOCK coming to
   * the name, in ALL mode only for its owner; the cleanup of its owner coming to the name; one of the
   * forms of IUNWATCH, of which only ALL asks for the owner; or an IWATCH that replaces it.
   */
  predicate Ends(st: State, step: Step, n: Name, r: string) {
    match step
    case RemoveInstrument(m) => m == n && st.command.None?
    case UnlockNext(_) => Unlocks(st, n)
    case CloseNext(s, _) => Cleans(st, s, n)
    case UnwatchInstrument(s, m) => m == n && CanStart(st, s)
    case UnwatchAll(s) => CanStart(st, s) && OwnedBy(st, n, s)
    case Unwatch(s, m, q) => m == n && q == r && CanStart(st, s)
    case Watch(s, m, q, _, _) =>
      m == n && q == r && CanStart(st, s) && OwnedBy(st, n, s)
      && st.objs[st.registry[n]].status == Ready && r in st.objs[st.registry[n]].resources
    case _ => false
  }

  /**
   * What one step does to an entry and its task: an entry that was listed stays unless the step ends it;
   * one that is listed afterwards keeps its task alive, unless its loop crashed, or its task is new and
   * alive; and a task that stays alive is changed by its own steps only.
   */
  ghost predicate EntryStep(a: State, step: Step, b: State, n: Name, r: string, t: TaskId) {
    && (Entry(a.watches, n, r, t) ==> (Entry(b.watches, n, r, t) <==> !Ends(a, step, n, r)))
    && (Entry(b.watches, n, r, t) ==>
          if Entry(a.watches, n, r, t) then (t in b.guards <==> t in a.guards && !Crashes(a, step, t))
          else t == a.nextTask && t in b.guards)
    && (t in a.guards && t in b.guards && !IsBackground(step) ==> b.guards[t] == a.guards[t])
  }

  // ---------------------------------------------------------------- parts of steps

  /** The entry stays with its task as it is, unless it is `ended`. */
  ghost predicate Kept(a: State, b: State, ended: bool, n: Name, r: string, t: TaskId) {
    && (Entry(b.watches, n, r, t) <==> Entry(a.watches, n, r, t) && !ended)
    && (Entry(b.watches, n, r, t) ==> (t in b.guards <==> t in a.guards))
    && (t in a.guards && t in b.guards ==> b.guards[t] == a.guards[t])
  }

  predicate SameTables(a: State, b: State) {
    b.watches == a.watches && b.guards == a.guards
  }

  /** Only the tables and the guard tasks count. */
  lemma SameKept(a: State, b: State, c: State, ended: bool, n: Name, r: string, t: TaskId)
    ensures SameTables(b, c) && Kept(a, b, ended, n, r, t) ==> Kept(a, c, ended, n, r, t)
    ensures SameTables(a, c) ==> Kept(a, c, false, n, r, t)
  {
  }

  lemma StopKept(st: State, m: Name, n: Name, r: string, t: TaskId)
    requires TablesOk(st)
    ensures Kept(st, StopGuards(st, m), m == n, n, r, t)
  {
  }

  lemma StopManyKept(st: State, mine: set<Name>, n: Name, r: string, t: TaskId)
    requires TablesOk(st)
    ensures var tasks := set m, q | m in mine && m in st.watches && q in st.watches[m] :: st.watches[m][q];
            Kept(st, st.(watches := st.watches - mine, guards := st.guards - tasks), n in mine, n, r, t)
  {
    var tasks := set m, q | m in mine && m in st.watches && q in st.watches[m] :: st.watches[m][q];
  }

  lemma StopOneKept(st: State, m: Name, q: string, n: Name, r: string, t: TaskId)
    requires TablesOk(st)
    ensures Kept(st, StopGuard(st, m, q), m == n && q == r, n, r, t)
  {
    hide StopGuard;
    StopGuardEntries(st, m, q, n, r);
    StopGuardTasks(st, m, q, t);
  }

  lemma PutEntry(watches: map<Name, map<string, TaskId>>, m: Name, q: string, u: TaskId, n: Name, r: string, t: TaskId)
    ensures var table := if m in watches then watches[m] else map[];
            Entry(watches[m := table[q := u]], n, r, t) <==>
              if m == n && q == r then t == u else Entry(watches, n, r, t)
  {
  }

  /** A new guard is a new task in place of the old one, and every other entry stays with its task. */
  lemma StartGuardEntry(st: State, o: ObjId, m: Name, q: string, low: Option<real>, high: Option<real>, n: Name,
          r: string, t: TaskId)
    requires TablesOk(st)
    ensures var b := StartGuard(st, o, m, q, low, high);
            && (Entry(b.watches, n, r, t) <==>
                  if m == n && q == r then t == st.nextTask else Entry(st.watches, n, r, t))
            && (Entry(b.watches, n, r, t) ==> (t in b.guards <==> t in st.guards || t == st.nextTask))
            && (t in st.guards && t in b.guards ==> b.guards[t] == st.guards[t])
    ensures Entry(st.watches, n, r, t) || t in st.guards ==> t < st.nextTask
  {
    assert Entry(st.watches, n, r, t) || t in st.guards ==> t < st.nextTask;
    hide StopGuard, TablesOk, Entry;
    StopOneKept(st, m, q, n, r, t);
    PutEntry(StopGuard(st, m, q).watches, m, q, st.nextTask, n, r, t);
  }

  lemma TurnKept(st: State, m: Name, s: Session, safe: bool, n: Name, r: string, t: TaskId)
    requires TablesOk(st)
    ensures Kept(st, ReleaseOwned(st, m, s, safe), m == n && OwnedBy(st, n, s), n, r, t)
  {
    hide InvalidateSpec, TasksAt, TablesOk;
    StopKept(st, m, n, r, t);
  }

  /** A part of a step that ends nothing but what the step is said to end. */
  lemma KeptStep(a: State, step: Step, b: State, n: Name, r: string, t: TaskId)
    ensures Kept(a, b, Ends(a, step, n, r), n, r, t) && !step.GuardReturn? && !step.GuardPublish? ==>
              EntryStep(a, step, b, n, r, t)
    ensures !ChangesWatches(step) && !IsBackground(step) && a.watches == b.watches && a.guards == b.guards ==>
              EntryStep(a, step, b, n, r, t)
    ensures IsBackground(step) ==> !Ends(a, step, n, r)
  {
    hide OwnedBy, Unlocks, Cleans, Entry, Disturbed;
  }

  // ---------------------------------------------------------------- steps

  lemma PhaseGuards(st: State, step: Step, t: TaskId)
    requires IsBackground(step) && !step.GuardReturn?
    ensures t in ApplyBackground(st, step).guards <==> t in st.guards && !Crashes(st, step, t)
  {
    hide WriteMeasSpec, WithStatus, TripPhase, PublishedPhase, Disturbed, ApplyGuardReturn, ApplyHealthTick,
      ApplyHealthReturn, ApplyHealthPublish;
  }

  lemma ReturnGuards(st: State, step: Step, t: TaskId)
    requires step.GuardReturn?
    ensures t in ApplyBackground(st, step).guards <==> t in st.guards && !Crashes(st, step, t)
  {
    hide WriteMeasSpec, Violates, AfterFailure, NotePhase, ApplyGuardTick, ApplyGuardTrip, ApplyGuardPublish,
      ApplyHealthTick, ApplyHealthReturn, ApplyHealthPublish;
  }

  /** Of the steps of guards and health tasks, only a read that ends and an event that is written can end a task. */
  lemma BackgroundEntry(st: State, step: Step, n: Name, r: string, t: TaskId)
    requires IsBackground(step)
    ensures EntryStep(st, step, ApplyBackground(st, step), n, r, t)
  {
    hide ApplyBackground, Crashes, Ends, Entry, Kept;
    BackgroundFrame(st, step);
    KeptStep(st, step, st, n, r, t);
    if step.GuardReturn? {
      ReturnGuards(st, step, t);
    } else {
      PhaseGuards(st, step, t);
    }
  }

  /** The tables after one name of IUNLOCK. */
  lemma UnlockTables(st: State, safe: bool)
    ensures var b := ApplyUnlockNext(st, safe);
            if st.command.Some? && st.command.value.Unlocking? && st.command.value.names != [] then
              var m, s := st.command.value.names[0], st.command.value.session;
              if st.command.value.all || OwnedBy(st, m, s) then SameTables(ReleaseOwned(st, m, s, safe), b)
              else SameTables(StopGuards(st, m), b)
            else SameTables(st, b)
  {
    hide Release, StopGuards;
  }

  lemma UnlockEntry(st: State, step: Step, n: Name, r: string, t: TaskId)
    requires TablesOk(st) && step.UnlockNext?
    ensures Kept(st, ApplyUnlockNext(st, step.safe), Unlocks(st, n), n, r, t)
  {
    hide TablesOk, ApplyUnlockNext, ReleaseOwned, StopGuards, Kept, OwnedBy, SameTables;
    var b := ApplyUnlockNext(st, step.safe);
    UnlockTables(st, step.safe);
    if st.command.Some? && st.command.value.Unlocking? && st.command.value.names != [] {
      var m, s := st.command.value.names[0], st.command.value.session;
      if st.command.value.all || OwnedBy(st, m, s) {
        TurnKept(st, m, s, step.safe, n, r, t);
        SameKept(st, ReleaseOwned(st, m, s, step.safe), b, m == n && OwnedBy(st, n, s), n, r, t);
      } else {
        StopKept(st, m, n, r, t);
        SameKept(st, StopGuards(st, m), b, m == n, n, r, t);
      }
    } else {
      SameKept(st, st, b, false, n, r, t);
    }
  }

  lemma RemoveEntry(st: State, m: Name, n: Name, r: string, t: TaskId)
    requires TablesOk(st)
    ensures Kept(st, ApplyRemove(st, m), m == n && st.command.None?, n, r, t)
  {
    hide TablesOk, TasksAt;
    StopKept(st, m, n, r, t);
  }

  lemma OwnershipEntry(st: State, step: Step, n: Name, r: string, t: TaskId)
    requires TablesOk(st) && IsOwnership(step)
    ensures EntryStep(st, step, ApplyOwnership(st, step), n, r, t)
  {
    hide TablesOk, Kept, EntryStep, Unlocks, Cleans, OwnedBy, ApplyAdd, ApplyRemove, ApplyLock, ApplyBeginUnlock,
      ApplyUnlockNext, ApplyUnlockRaises;
    KeptStep(st, step, ApplyOwnership(st, step), n, r, t);
    if step.UnlockNext? {
      UnlockEntry(st, step, n, r, t);
    } else if step.RemoveInstrument? {
      RemoveEntry(st, step.name, n, r, t);
    }
  }

  lemma CloseTables(st: State, s: Session, safe: bool)
    ensures var b := ApplyCloseNext(st, s, safe);
            if s in st.closing && st.closing[s].Releasing? && st.closing[s].names != [] then
              SameTables(ReleaseOwned(st, st.closing[s].names[0], s, safe), b)
            else SameTables(st, b)
  {
    hide Release;
  }

  lemma CloseEntry(st: State, step: Step, n: Name, r: string, t: TaskId)
    requires TablesOk(st) && step.CloseNext?
    ensures Kept(st, ApplyCloseNext(st, step.session, step.safe), Cleans(st, step.session, n), n, r, t)
  {
    hide TablesOk, ApplyCloseNext, ReleaseOwned, Kept, OwnedBy, SameTables;
    var s, b := step.session, ApplyCloseNext(st, step.session, step.safe);
    CloseTables(st, s, step.safe);
    if s in st.closing && st.closing[s].Releasing? && st.closing[s].names != [] {
      var m := st.closing[s].names[0];
      TurnKept(st, m, s, step.safe, n, r, t);
      SameKept(st, ReleaseOwned(st, m, s, step.safe), b, m == n && OwnedBy(st, n, s), n, r, t);
    } else {
      SameKept(st, st, b, false, n, r, t);
    }
  }

  lemma ClosingEntry(st: State, step: Step, n: Name, r: string, t: TaskId)
    requires TablesOk(st) && IsClosing(step)
    ensures EntryStep(st, step, ApplyClosing(st, step), n, r, t)
  {
    hide TablesOk, Kept, EntryStep, Unlocks, Cleans, OwnedBy, ApplyStartClose, ApplyCloseNext, ApplyCloseKeys,
      ApplyFinishClose;
    KeptStep(st, step, ApplyClosing(st, step), n, r, t);
    if step.CloseNext? {
      CloseEntry(st, step, n, r, t);
    }
  }

  lemma WatchEntry(st: State, step: Step, n: Name, r: string, t: TaskId)
    requires TablesOk(st) && step.Watch?
    ensures EntryStep(st, step, ApplyWatch(st, step.session, step.name, step.resource, step.low, step.high), n, r, t)
  {
    hide TablesOk, StartGuard, Entry;
    if OwnedBy(st, step.name, step.session) {
      StartGuardEntry(st, st.registry[step.name], step.name, step.resource, step.low, step.high, n, r, t);
    }
  }

  lemma UnwatchEntry(st: State, s: Session, m: Name, q: string, n: Name, r: string, t: TaskId)
    requires TablesOk(st)
    ensures Kept(st, ApplyUnwatch(st, s, m, q), m == n && q == r && CanStart(st, s), n, r, t)
    ensures Kept(st, ApplyUnwatchInstrument(st, s, m), m == n && CanStart(st, s), n, r, t)
  {
    hide TablesOk, Kept, Entry, TasksAt, InvalidateSpec, MarkStale;
    SameKept(st, st, st, false, n, r, t);
    StopOneKept(st, m, q, n, r, t);
    SameKept(st, StopGuard(st, m, q), ApplyUnwatch(st, s, m, q), m == n && q == r, n, r, t);
    StopKept(st, m, n, r, t);
    SameKept(st, StopGuards(st, m), ApplyUnwatchInstrument(st, s, m), m == n, n, r, t);
  }

  lemma UnwatchAllEntry(st: State, s: Session, n: Name, r: string, t: TaskId)
    requires TablesOk(st)
    ensures Kept(st, ApplyUnwatchAll(st, s), CanStart(st, s) && OwnedBy(st, n, s), n, r, t)
  {
    hide TablesOk, OwnedBy, MeasPrefix;
    var mine := set m | m in st.watches && OwnedBy(st, m, s);
    StopManyKept(st, mine, n, r, t);
    assert (set m, q | m in mine && q in st.watches[m] :: st.watches[m][q])
        == set m, q | m in mine && m in st.watches && q in st.watches[m] :: st.watches[m][q];
  }

  lemma WatchingEntry(st: State, step: Step, n: Name, r: string, t: TaskId)
    requires TablesOk(st) && IsWatching(step)
    ensures EntryStep(st, step, ApplyWatching(st, step), n, r, t)
  {
    hide TablesOk, EntryStep, Kept, OwnedBy, ApplyWatch, ApplyUnwatch, ApplyUnwatchInstrument, ApplyUnwatchAll;
    KeptStep(st, step, ApplyWatching(st, step), n, r, t);
    if step.Watch? {
      WatchEntry(st, step, n, r, t);
    } else if step.UnwatchAll? {
      UnwatchAllEntry(st, step.session, n, r, t);
    } else {
      UnwatchEntry(st, step.session, step.name, if step.Unwatch? then step.resource else "", n, r, t);
    }
  }

  /** Every step treats every entry in this way. */
  lemma AnyEntry(st: State, step: Step, n: Name, r: string, t: TaskId)
    requires Inv(st)
    ensures EntryStep(st, step, Apply(st, step), n, r, t)
  {
    hide EntryStep, OkObjects, OkRegistry, TablesOk, OkHealth, CommandOk, OkSessions, OkKeys, OkSubs, Apply, Ends, Kept,
      ApplyBackground, ApplyOwnership, ApplyWatching, ApplyClosing;
    if IsBackground(step) {
      BackgroundIs(st, step);
      BackgroundEntry(st, step, n, r, t);
    } else if IsOwnership(step) {
      OwnershipIs(st, step);
      OwnershipEntry(st, step, n, r, t);
    } else if IsWatching(step) {
      WatchingIs(st, step);
      WatchingEntry(st, step, n, r, t);
    } else if IsClosing(step) {
      ClosingIs(st, step);
      ClosingEntry(st, step, n, r, t);
    } else {
      Frame(st, step);
      KeptStep(st, step, Apply(st, step), n, r, t);
    }
  }

  /** A listed entry is gone after a step if and only if the step is one of those that `Ends` names. */
  lemma EntryEndsIff(st: State, step: Step, n: Name, r: string, t: TaskId)
    requires Inv(st) && Entry(st.watches, n, r, t)
    ensures !Entry(Apply(st, step).watches, n, r, t) <==> Ends(st, step, n, r)
  {
    hide Inv, Entry, Ends, Apply, Crashes;
    AnyEntry(st, step, n, r, t);
  }

  // ---------------------------------------------------------------- runs

  ghost predicate ListedAt(run: seq<Step>, x: int, n: Name, r: string, t: TaskId) {
    Entry(At(run, x).watches, n, r, t)
  }

  ghost predicate CrashesAt(run: seq<Step>, x: int, t: TaskId) {
    0 <= x < |run| && Crashes(At(run, x), StepAt(run, x), t)
  }

  ghost predicate EndsAt(run: seq<Step>, x: int, n: Name, r: string) {
    0 <= x < |run| && Ends(At(run, x), StepAt(run, x), n, r)
  }

  /** One step of a run, as far as it concerns an entry. */
  lemma EntryAt(run: seq<Step>, x: int, n: Name, r: string, t: TaskId)
    requires 0 <= x
    ensures ListedAt(run, x, n, r, t) ==> (ListedAt(run, x + 1, n, r, t) <==> !EndsAt(run, x, n, r))
    ensures ListedAt(run, x + 1, n, r, t) ==>
              if ListedAt(run, x, n, r, t)
              then (t in At(run, x + 1).guards <==> t in At(run, x).guards && !CrashesAt(run, x, t))
              else t == At(run, x).nextTask && t in At(run, x + 1).guards
    ensures At(run, x).nextTask <= At(run, x + 1).nextTask
  {
    hide At, Apply, Inv, Crashes, Entry, Ends;
    AtStep(run, x);
    if x < |run| {
      ReachableInv(run, x);
      AnyEntry(At(run, x), StepAt(run, x), n, r, t);
      NextTaskGrows(At(run, x), StepAt(run, x));
    }
  }

  lemma NextTaskGrows(st: State, step: Step)
    ensures st.nextTask <= Apply(st, step).nextTask
  {
    hide Apply, StartGuard, OwnedBy, ApplyUnwatch, ApplyUnwatchInstrument, ApplyUnwatchAll;
    Frame(st, step);
    if step.Watch? {
      WatchingIs(st, step);
    }
  }

  lemma {:induction false} TasksGrow(run: seq<Step>, i: int, j: int)
    requires 0 <= i <= j
    ensures At(run, i).nextTask <= At(run, j).nextTask
    decreases j - i
  {
    hide At, ListedAt;
    if i < j {
      TasksGrow(run, i, j - 1);
      EntryAt(run, j - 1, "", "", 0);
    }
  }

  /**
   * In every reachable state an entry that is listed has a live task, unless the loop of that very
   * task crashed at an earlier step; the entry then stays listed without one.
   */
  lemma {:induction false} EntryAliveIff(run: seq<Step>, j: int, n: Name, r: string, t: TaskId)
    requires 0 <= j && ListedAt(run, j, n, r, t)
    ensures t in At(run, j).guards <==> forall x :: 0 <= x < j ==> !CrashesAt(run, x, t)
    decreases j
  {
    hide At, ListedAt, CrashesAt;
    if j == 0 {
      NothingListed(run, n, r, t);
    } else {
      EntryAt(run, j - 1, n, r, t);
      if ListedAt(run, j - 1, n, r, t) {
        EntryAliveIff(run, j - 1, n, r, t);
      } else {
        NewTaskNeverCrashed(run, j - 1, t);
      }
    }
  }

  lemma NothingListed(run: seq<Step>, n: Name, r: string, t: TaskId)
    ensures !ListedAt(run, 0, n, r, t)
  {
    hide Apply;
  }

  lemma NewTaskNeverCrashed(run: seq<Step>, i: int, t: TaskId)
    requires 0 <= i && t == At(run, i).nextTask
    ensures forall x :: 0 <= x <= i ==> !CrashesAt(run, x, t)
  {
    hide At, Inv;
    forall x | 0 <= x <= i ensures !CrashesAt(run, x, t) {
      TasksGrow(run, x, i);
      ReachableInv(run, x);
      OldTasks(At(run, x), t);
    }
  }

  lemma OldTasks(st: State, t: TaskId)
    requires Inv(st)
    ensures t in st.guards ==> t < st.nextTask
  {
    hide OkObjects, OkRegistry, OkWatches, OkHealth, CommandOk, OkSessions, OkKeys, OkSubs, Listed;
  }

  /** A task that is no longer listed is never listed again. */
  lemma {:induction false} NeverListedAgain(run: seq<Step>, i: int, j: int, n: Name, r: string, t: TaskId)
    requires 0 <= i <= j && !ListedAt(run, i, n, r, t) && t < At(run, i).nextTask
    ensures !ListedAt(run, j, n, r, t)
    decreases j - i
  {
    hide At, ListedAt;
    if i < j {
      NeverListedAgain(run, i, j - 1, n, r, t);
      TasksGrow(run, i, j - 1);
      EntryAt(run, j - 1, n, r, t);
    }
  }

  lemma ListedTask(run: seq<Step>, i: int, n: Name, r: string, t: TaskId)
    requires ListedAt(run, i, n, r, t)
    ensures t < At(run, i).nextTask
  {
    hide At, OkObjects, OkRegistry, OkGuards, OkHealth, CommandOk, OkSessions, OkKeys, OkSubs;
    ReachableInv(run, i);
  }

  /** Over whole runs: an entry is still listed if and only if no step in between was one that ends it. */
  lemma {:induction false} EntryListedIff(run: seq<Step>, i: int, j: int, n: Name, r: string, t: TaskId)
    requires 0 <= i <= j && ListedAt(run, i, n, r, t)
    ensures ListedAt(run, j, n, r, t) <==> forall x :: i <= x < j ==> !EndsAt(run, x, n, r)
    decreases j - i
  {
    hide At, ListedAt, EndsAt;
    if i < j {
      EntryListedIff(run, i, j - 1, n, r, t);
      EntryAt(run, j - 1, n, r, t);
      if !ListedAt(run, j - 1, n, r, t) {
        ListedTask(run, i, n, r, t);
        TasksGrow(run, i, j - 1);
        NeverListedAgain(run, j - 1, j, n, r, t);
      }
    }
  }

  /** A live guard is listed under its own instrument and resource. */
  lemma AliveIsListed(st: State, n: Name, r: string, t: TaskId)
    requires Inv(st) && Alive(st, n, r, t)
    ensures Entry(st.watches, n, r, t) && st.guards[t].obj in st.objs
  {
    hide OkObjects, OkWatches, OkHealth, CommandOk, OkSessions, OkKeys, OkSubs;
    assert Listed(st.registry, st.watches, t, st.guards[t]);
  }

  /** And nowhere else. */
  lemma OneEntry(st: State, n: Name, r: string, t: TaskId)
    requires Inv(st) && t in st.guards && Entry(st.watches, n, r, t)
    ensures Alive(st, n, r, t)
  {
    hide OkObjects, OkRegistry, OkWatches, OkHealth, CommandOk, OkSessions, OkKeys, OkSubs;
  }

  lemma AliveAt(run: seq<Step>, i: int, n: Name, r: string, t: TaskId)
    ensures Alive(At(run, i), n, r, t) <==> ListedAt(run, i, n, r, t) && t in At(run, i).guards
  {
    hide At, Inv, Entry;
    ReachableInv(run, i);
    if Alive(At(run, i), n, r, t) {
      AliveIsListed(At(run, i), n, r, t);
    } else if ListedAt(run, i, n, r, t) && t in At(run, i).guards {
      OneEntry(At(run, i), n, r, t);
    }
  }

  /**
   * How long a guard runs: it is alive later if and only if since then no step ended its entry and its
   * loop did not crash. Whether the instrument is READY or owned plays no part.
   */
  lemma GuardLivesIff(run: seq<Step>, i: int, j: int, n: Name, r: string, t: TaskId)
    requires 0 <= i <= j && Alive(At(run, i), n, r, t)
    ensures t in At(run, j).guards <==> forall x :: i <= x < j ==> !EndsAt(run, x, n, r) && !CrashesAt(run, x, t)
    ensures t in At(run, j).guards ==> Alive(At(run, j), n, r, t)
  {
    hide At, EndsAt, CrashesAt, ListedAt;
    AliveAt(run, i, n, r, t);
    AliveAt(run, j, n, r, t);
    EntryListedIff(run, i, j, n, r, t);
    EntryAliveIff(run, i, n, r, t);
    if ListedAt(run, j, n, r, t) {
      EntryAliveIff(run, j, n, r, t);
    } else if t in At(run, j).guards {
      NoSecondEntry(run, i, j, n, r, t);
    }
  }

  /** A task that is alive at two times is listed under the same entry. */
  lemma NoSecondEntry(run: seq<Step>, i: int, j: int, n: Name, r: string, t: TaskId)
    requires 0 <= i <= j && Alive(At(run, i), n, r, t) && t in At(run, j).guards
    ensures ListedAt(run, j, n, r, t)
  {
    var m, q := At(run, j).guards[t].name, At(run, j).guards[t].resource;
    hide At, Inv;
    AliveAt(run, j, m, q, t);
    ReachableInv(run, i);
    OldTasks(At(run, i), t);
    AliveAt(run, i, m, q, t);
    if !ListedAt(run, i, m, q, t) {
      NeverListedAgain(run, i, j, m, q, t);
    }
  }
}
