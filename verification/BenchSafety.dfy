/**
 * Safety over whole runs of the bench: who may own an instrument, how it is handed over, how it
 * leaves a fault, what guards may exist.
 */
module BenchSafety {
  import opened Wrappers
  import opened Store
  import opened Bench
  import opened BenchFrames
  import opened BenchInvariant
  import opened BenchEvents

  // ---------------------------------------------------------------- one step of a run

  lemma EffectAt(run: seq<Step>, i: int, o: ObjId)
    requires 0 <= i && o in At(run, i).objs
    ensures Changed(At(run, i), At(run, i + 1), o, ChangeAt(run, i, o))
    ensures Caused(run, i, o, ChangeAt(run, i, o))
  {
    hide Inv, Changed, ChangeBy, Caused, Apply;
    CauseOf(run, i, o);
    if i < |run| {
      ReachableInv(run, i);
      Effect(At(run, i), run[i], o);
    } else {
      SameChanged(At(run, i), o);
    }
  }

  lemma SameChanged(st: State, o: ObjId)
    ensures o in st.objs ==> Changed(st, st, o, Same)
  {
  }

  lemma {:induction false} ObjectsStay(run: seq<Step>, i: int, j: int, o: ObjId)
    requires 0 <= i <= j && o in At(run, i).objs
    ensures o in At(run, j).objs
    decreases j - i
  {
    hide At, ChangeAt;
    if i < j {
      ObjectsStay(run, i, j - 1, o);
      EffectAt(run, j - 1, o);
    }
  }

  // ---------------------------------------------------------------- ownership

  /** In every reachable state an IDLE instrument has no owner. */
  lemma IdleIsUnowned(run: seq<Step>, i: int, o: ObjId)
    requires HasStatus(At(run, i), o, Idle)
    ensures HasOwner(At(run, i), o, None)
  {
    hide At;
    ReachableInv(run, i);
  }

  /** An owner comes only by locking an IDLE instrument without owner, and goes only by its own release. */
  lemma OwnerChanges(run: seq<Step>, i: int, o: ObjId, s: Session)
    requires 0 <= i && o in At(run, i).objs
    ensures o in At(run, i + 1).objs
    ensures !HasOwner(At(run, i), o, Some(s)) && HasOwner(At(run, i + 1), o, Some(s)) ==>
              HasOwner(At(run, i), o, None) && HasStatus(At(run, i), o, Idle) && LocksAt(run, i, o, s)
    ensures HasOwner(At(run, i), o, Some(s)) && !HasOwner(At(run, i + 1), o, Some(s)) ==>
              HasOwner(At(run, i + 1), o, None) && exists safe :: ReleasesAt(run, i, o, s, safe)
  {
    hide At, ChangeAt, LocksAt, ReleasesAt, CompletesAt, ResetsAt;
    EffectAt(run, i, o);
  }

  /** An instrument without owner that is not IDLE. */
  ghost predicate Stuck(st: State, o: ObjId) {
    HasOwner(st, o, None) && !HasStatus(st, o, Idle)
  }

  /** Nothing but removing it gets an unowned instrument that is not IDLE out of that state. */
  lemma {:induction false} StuckForever(run: seq<Step>, i: int, j: int, o: ObjId)
    requires 0 <= i <= j && Stuck(At(run, i), o)
    ensures Stuck(At(run, j), o)
    decreases j - i
  {
    hide At, ChangeAt, Caused;
    if i < j {
      StuckForever(run, i, j - 1, o);
      EffectAt(run, j - 1, o);
    }
  }

  // ---------------------------------------------------------------- searching a run

  /** The last acquisition by `t` before `j`, after which `t` stays the owner. */
  lemma {:induction false} AcquisitionBefore(run: seq<Step>, i: int, j: int, o: ObjId, t: Session) returns (l: int)
    requires 0 <= i <= j && o in At(run, i).objs
    requires !HasOwner(At(run, i), o, Some(t)) && HasOwner(At(run, j), o, Some(t))
    ensures i <= l < j && HasStatus(At(run, l), o, Idle) && LocksAt(run, l, o, t)
    ensures HasStatus(At(run, l + 1), o, Locked)
    ensures forall x :: l < x <= j ==> HasOwner(At(run, x), o, Some(t))
    decreases j - i
  {
    hide At, ChangeAt, LocksAt, ReleasesAt, CompletesAt, ResetsAt;
    ObjectsStay(run, i, j - 1, o);
    EffectAt(run, j - 1, o);
    if HasOwner(At(run, j - 1), o, Some(t)) {
      l := AcquisitionBefore(run, i, j - 1, o, t);
    } else {
      l := j - 1;
    }
  }

  /** The first release by `s` after `i`, up to which `s` stays the owner. */
  lemma {:induction false} ReleaseAfter(run: seq<Step>, i: int, j: int, o: ObjId, s: Session)
    returns (k: int, safe: bool)
    requires 0 <= i <= j && HasOwner(At(run, i), o, Some(s)) && !HasOwner(At(run, j), o, Some(s))
    ensures i <= k < j && ReleasesAt(run, k, o, s, safe)
    ensures HasOwner(At(run, k + 1), o, None) && HasStatus(At(run, k + 1), o, if safe then Idle else Fault)
    decreases j - i
  {
    hide At, ChangeAt, LocksAt, ReleasesAt, CompletesAt, ResetsAt;
    EffectAt(run, i, o);
    if HasOwner(At(run, i + 1), o, Some(s)) {
      k, safe := ReleaseAfter(run, i + 1, j, o, s);
    } else {
      k, safe := i, ChangeAt(run, i, o).safe;
    }
  }

  /** Between a state that is not READY and one that is, an IINIT or IALIGN completes. */
  lemma {:induction false} CompletionBetween(run: seq<Step>, i: int, j: int, o: ObjId) returns (m: int)
    requires 0 <= i <= j && o in At(run, i).objs && !HasStatus(At(run, i), o, Ready) && HasStatus(At(run, j), o, Ready)
    ensures i <= m < j && CompletesAt(run, m, o)
    decreases j - i
  {
    hide At, ChangeAt, LocksAt, ReleasesAt, CompletesAt, ResetsAt;
    ObjectsStay(run, i, j - 1, o);
    EffectAt(run, j - 1, o);
    if HasStatus(At(run, j - 1), o, Ready) {
      m := CompletionBetween(run, i, j - 1, o);
    } else {
      m := j - 1;
    }
  }

  /** Only the owner of a READY instrument starts an owner's call on it. */
  lemma UserOwns(run: seq<Step>, i: int, o: ObjId, s: Session)
    requires UsesAt(run, i, o, s)
    ensures HasOwner(At(run, i), o, Some(s)) && HasStatus(At(run, i), o, Ready)
  {
    ReachableInv(run, i);
    hide At, OkObjects, OkRegistry, TablesOk, OkHealth, OkSessions, OkKeys, OkSubs;
    assert o in At(run, i).command.value.pending;
  }

  // ---------------------------------------------------------------- handover

  /**
   * Between a use of an instrument by `s` and a later use by another session `t`, under every
   * interleaving: `s` released it with safe_state returning, then `t` locked it, then an IINIT or
   * IALIGN completed; and no release in between had a failing safe_state.
   */
  lemma HandoverIsSafe(run: seq<Step>, i: int, j: int, o: ObjId, s: Session, t: Session)
    returns (k: int, l: int, m: int)
    requires 0 <= i < j && s != t && UsesAt(run, i, o, s) && UsesAt(run, j, o, t)
    ensures i <= k < l < m < j
    ensures ReleasesAt(run, k, o, s, true) && LocksAt(run, l, o, t) && CompletesAt(run, m, o)
    ensures forall x, u :: i <= x < j ==> !ReleasesAt(run, x, o, u, false)
  {
    hide At, LocksAt, ReleasesAt, CompletesAt, UsesAt;
    UserOwns(run, i, o, s);
    UserOwns(run, j, o, t);
    l := AcquisitionBefore(run, i, j, o, t);
    IdleIsUnowned(run, l, o);
    var safe: bool;
    k, safe := ReleaseAfter(run, i, l, o, s);
    forall x, u | i <= x < j ensures !ReleasesAt(run, x, o, u, false) {
      NoFailedRelease(run, x, j, o, u, t);
    }
    m := CompletionBetween(run, l + 1, j, o);
  }

  /** After a release with a failing safe_state nobody ever owns the instrument again. */
  lemma NoFailedRelease(run: seq<Step>, x: int, j: int, o: ObjId, u: Session, t: Session)
    requires x < j && HasOwner(At(run, j), o, Some(t))
    ensures !ReleasesAt(run, x, o, u, false)
  {
    hide At, ReleasesAt, ChangeAt;
    if ReleasesAt(run, x, o, u, false) {
      FailedReleaseSticks(run, x, o, u);
      StuckForever(run, x + 1, j, o);
    }
  }

  lemma FailedReleaseSticks(run: seq<Step>, x: int, o: ObjId, u: Session)
    requires ReleasesAt(run, x, o, u, false)
    ensures 0 <= x && Stuck(At(run, x + 1), o)
  {
    hide At, ChangeAt, Caused, InFault;
    ReleaseIs(run, x, o, u, false);
    EffectAt(run, x, o);
  }

  // ---------------------------------------------------------------- leaving a fault

  /** An IINIT or IALIGN has passed its state check for `o` and has not ended. */
  ghost predicate InFlight(st: State, o: ObjId) {
    st.command.Some? && (st.command.value.Initing? || st.command.value.Aligning?) && Called(st) == Some(o)
  }

  /** IINIT of `o`, or IALIGN coming to `o`, passes its state check. */
  ghost predicate Starts(st: State, step: Step, o: ObjId) {
    o in st.objs
    && match step
       case BeginInit(s, n, _) =>
         CanStart(st, s) && n in st.registry && st.registry[n] == o
         && (st.objs[o].status == Locked || st.objs[o].status == Ready)
       case AlignNext =>
         st.command.Some? && st.command.value.Aligning? && st.command.value.names != []
         && st.command.value.names[0] in st.registry && st.registry[st.command.value.names[0]] == o
         && st.objs[o].status == Locked
       case _ => false
  }

  ghost predicate StartsAt(run: seq<Step>, x: int, o: ObjId) {
    0 <= x < |run| && Starts(At(run, x), StepAt(run, x), o)
  }

  lemma LifecycleFlight(st: State, step: Step, o: ObjId)
    ensures IsLifecycle(step) && InFlight(ApplyLifecycle(st, step), o) ==> InFlight(st, o) || Starts(st, step, o)
  {
    hide AfterFailure, MarkReady, AfterInitCall;
  }

  lemma UseFlight(st: State, step: Step, o: ObjId)
    ensures InFlight(ApplyUse(st, step), o) ==> InFlight(st, o)
  {
    hide ReadTarget, WriteMeasSpec, NoteMark, RemoveAt, AfterUse, OwnedBy, ErrorStatus, NotFoundText, NotReadyText,
      ObjectsOf, UseValue, UseStatus;
  }

  lemma OwnershipFlight(st: State, step: Step, o: ObjId)
    ensures InFlight(ApplyOwnership(st, step), o) ==> InFlight(st, o)
  {
    hide ReleaseOwned, StopGuards, OwnedBy, Listing, ApplyAdd, ApplyRemove, ApplyLock;
  }

  lemma ClosingFlight(st: State, step: Step, o: ObjId)
    ensures InFlight(ApplyClosing(st, step), o) ==> InFlight(st, o)
  {
    hide Listing, ApplyCloseNext, ApplyCloseKeys, ApplyFinishClose;
  }

  /** What is in flight after a step and was not before was started by it. */
  lemma FlightStarts(st: State, step: Step, o: ObjId)
    ensures InFlight(Apply(st, step), o) ==> InFlight(st, o) || Starts(st, step, o)
  {
    hide Apply, Starts, ApplyLifecycle, ApplyUse, ApplyOwnership, ApplyClosing;
    if IsLifecycle(step) {
      LifecycleIs(st, step);
      LifecycleFlight(st, step, o);
    } else if IsUse(step) {
      UseIs(st, step);
      UseFlight(st, step, o);
    } else if IsOwnership(step) {
      OwnershipIs(st, step);
      OwnershipFlight(st, step, o);
    } else if IsClosing(step) {
      ClosingIs(st, step);
      ClosingFlight(st, step, o);
    } else {
      Frame(st, step);
    }
  }

  lemma {:induction false} FlightStartedBetween(run: seq<Step>, i: int, j: int, o: ObjId) returns (n: int)
    requires 0 <= i <= j && !InFlight(At(run, i), o) && InFlight(At(run, j), o)
    ensures i <= n < j && StartsAt(run, n, o)
    decreases j - i
  {
    hide InFlight, Starts, Apply;
    if InFlight(At(run, j - 1), o) {
      n := FlightStartedBetween(run, i, j - 1, o);
    } else {
      n := j - 1;
      FlightStarts(At(run, n), run[n], o);
    }
  }

  ghost predicate InFault(st: State, o: ObjId) {
    o in st.objs && Broken(st.objs[o].status)
  }

  /** The step at which the fault is left. */
  lemma {:induction false} FaultLeftAt(run: seq<Step>, i: int, j: int, o: ObjId) returns (k: int)
    requires 0 <= i <= j && InFault(At(run, i), o) && !InFault(At(run, j), o)
    ensures i <= k < j && !InFault(At(run, k + 1), o)
    ensures forall x :: i <= x <= k ==> InFault(At(run, x), o)
    decreases j - i
  {
    hide At, InFault;
    if InFault(At(run, i + 1), o) {
      k := FaultLeftAt(run, i + 1, j, o);
    } else {
      k := i;
    }
  }

  lemma CompletesInFlight(run: seq<Step>, x: int, o: ObjId)
    ensures CompletesAt(run, x, o) ==> InFlight(At(run, x), o)
    ensures StartsAt(run, x, o) ==> !InFault(At(run, x), o)
  {
    hide At;
  }

  /**
   * A FAULT or UNRESPONSIVE instrument that is READY later, with no IINIT or IALIGN of it in flight
   * when the fault is seen: at `k` it was reset, or released with safe_state returning; after that,
   * at `n`, an IINIT or IALIGN was started, and at `m` one completed.
   */
  lemma FaultExit(run: seq<Step>, i: int, j: int, o: ObjId) returns (k: int, n: int, m: int)
    requires 0 <= i < j && InFault(At(run, i), o) && !InFlight(At(run, i), o) && HasStatus(At(run, j), o, Ready)
    ensures i <= k < n < m < j
    ensures ResetsAt(run, k, o) || exists s :: ReleasesAt(run, k, o, s, true)
    ensures StartsAt(run, n, o) && CompletesAt(run, m, o)
  {
    hide At, ChangeAt, LocksAt, ReleasesAt, CompletesAt, ResetsAt, StartsAt, InFlight;
    k := FaultLeftAt(run, i, j, o);
    EffectAt(run, k, o);
    CompletesInFlight(run, k, o);
    if ChangeAt(run, k, o).Completed? {
      var early := FlightStartedBetween(run, i, k, o);
      CompletesInFlight(run, early, o);
      assert false;
    }
    m := CompletionBetween(run, k + 1, j, o);
    CompletesInFlight(run, m, o);
    n := FlightStartedBetween(run, i, m, o);
    CompletesInFlight(run, n, o);
  }

  // ---------------------------------------------------------------- guards

  /**
   * Watched instruments are registered, owned and not IDLE and their tables are not empty; every live
   * guard task is listed under its instrument and resource, under no other entry, and guards the
   * instrument object now registered under that name.
   */
  ghost predicate Contained(st: State) {
    && (forall n :: n in st.watches ==>
          && st.watches[n] != map[] && n in st.registry && st.registry[n] in st.objs
          && st.objs[st.registry[n]].owner.Some? && st.objs[st.registry[n]].status != Idle)
    && (forall t :: t in st.guards ==> Listed(st.registry, st.watches, t, st.guards[t]))
    && (forall t, n, r :: t in st.guards && n in st.watches && r in st.watches[n] && st.watches[n][r] == t ==>
          n == st.guards[t].name && r == st.guards[t].resource)
  }

  /** So it is in every reachable state. */
  lemma GuardsContained(run: seq<Step>, i: int)
    ensures Contained(At(run, i))
  {
    hide At, OkKeys, OkSubs, OkSessions, CommandOk, OkHealth;
    ReachableInv(run, i);
    var st := At(run, i);
    forall n | n in st.watches ensures IsOwned(st.objs, st.registry, n) && st.objs[st.registry[n]].status != Idle {
      assert IsOwned(st.objs, st.registry, n);
    }
  }
}
