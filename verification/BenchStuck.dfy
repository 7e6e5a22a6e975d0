/**
 * Instruments that have no owner and are not IDLE: exactly when one comes to that.
 */
module BenchStuck {
  import opened Wrappers
  import opened Bench
  import opened BenchFrames
  import opened BenchInvariant
  import opened BenchEvents
  import opened BenchSafety

  // ---------------------------------------------------------------- calls on an IDLE instrument

  /** The ends of IPING, IINIT, IALIGN and health pings, which are not for owners only. */
  predicate NeedsNoOwner(step: Step) {
    step.PingReturn? || step.InitReturn? || step.AlignReturn? || step.HealthReturn?
  }

  /**
   * A driver call on an IDLE instrument that breaks it: an IPING, IINIT or IALIGN that times out, or a
   * health ping that times out or is the third failure in a row. Uses and guards are of owned
   * instruments only.
   */
  lemma IdleCalls(st: State, step: Step, o: ObjId)
    requires Inv(st) && HasStatus(st, o, Idle)
    ensures Spoils(st, step, o) ==> NeedsNoOwner(step)
  {
    hide OkRegistry, OkHealth, OkSessions, OkKeys, OkSubs, CommandOk, TablesOk;
    if step.UseReturn? && Spoils(st, step, o) {
      CallOwned(st, step.index);
      assert false;
    } else if (step.GuardReturn? || step.GuardTrip?) && Spoils(st, step, o) {
      GuardOwned(st, step.task);
      assert false;
    }
  }

  lemma SpoilsAlone(st: State, step: Step, o: ObjId)
    ensures Spoils(st, step, o) <==> Breaks(ChangeBy(st, step, o))
  {
    hide Locks, Resets, ReleaseTarget, OwnedBy;
  }

  lemma IdleChanges(a: State, b: State, o: ObjId, change: Change)
    requires HasStatus(a, o, Idle) && HasOwner(a, o, None) && Changed(a, b, o, change)
    ensures InFault(b, o) <==> Breaks(change)
  {
  }

  /** An IDLE instrument is broken by a step if and only if the step ends such a call. */
  lemma IdleSpoiledIff(st: State, step: Step, o: ObjId)
    requires Inv(st) && HasStatus(st, o, Idle)
    ensures InFault(Apply(st, step), o) <==> Spoils(st, step, o) && NeedsNoOwner(step)
  {
    hide Apply, NeedsNoOwner, OkRegistry, TablesOk, OkHealth, CommandOk, OkSessions, OkKeys, OkSubs, ChangeBy, Changed,
      InFault, Spoils;
    Effect(st, step, o);
    SpoilsAlone(st, step, o);
    IdleCalls(st, step, o);
    IdleChanges(st, Apply(st, step), o, ChangeBy(st, step, o));
  }

  // ---------------------------------------------------------------- runs

  /** A step after which `o` has no owner and is not IDLE: one of three causes. */
  ghost predicate StrandsAt(run: seq<Step>, x: int, o: ObjId) {
    || (exists s :: ReleasesAt(run, x, o, s, false))
    || (HasStatus(At(run, x), o, Idle) && CompletesAt(run, x, o))
    || (0 <= x < |run| && HasStatus(At(run, x), o, Idle) && Spoils(At(run, x), StepAt(run, x), o))
  }

  /** A new object is IDLE. */
  lemma NewIsIdle(run: seq<Step>, x: int, o: ObjId)
    requires 0 <= x && o !in At(run, x).objs && o in At(run, x + 1).objs
    ensures HasStatus(At(run, x + 1), o, Idle)
  {
    hide At, Apply, OkRegistry, TablesOk, OkHealth, CommandOk, OkSessions, OkKeys, OkSubs;
    ReachableInv(run, x);
    ReachableInv(run, x + 1);
    AtStep(run, x);
    Frame(At(run, x), StepAt(run, x));
    AddIsIdle(At(run, x), StepAt(run, x));
  }

  /** Where a stuck instrument got stuck. */
  lemma {:induction false} StrandedBefore(run: seq<Step>, j: int, o: ObjId) returns (x: int)
    requires Stuck(At(run, j), o)
    ensures 0 <= x < j && StrandsAt(run, x, o)
    decreases j
  {
    hide At, LocksAt, ReleasesAt, CompletesAt, ResetsAt, ChangeAt, Spoils, Inv;
    x := j - 1;
    StartsEmpty(run, j, o);
    if o !in At(run, x).objs {
      NewIsIdle(run, x, o);
      assert false;
    } else if Stuck(At(run, x), o) {
      x := StrandedBefore(run, x, o);
    } else {
      EffectAt(run, x, o);
      IdleUnowned(run, x, o);
      DegradedSpoils(run, x, o);
    }
  }

  lemma StartsEmpty(run: seq<Step>, j: int, o: ObjId)
    ensures o in At(run, j).objs ==> 0 < j
  {
    hide Apply;
  }

  lemma IdleUnowned(run: seq<Step>, x: int, o: ObjId)
    ensures HasStatus(At(run, x), o, Idle) ==> HasOwner(At(run, x), o, None)
  {
    hide At;
    if HasStatus(At(run, x), o, Idle) {
      IdleIsUnowned(run, x, o);
    }
  }

  lemma DegradedSpoils(run: seq<Step>, x: int, o: ObjId)
    ensures Breaks(ChangeAt(run, x, o)) <==> 0 <= x < |run| && Spoils(At(run, x), StepAt(run, x), o)
  {
    hide At, Spoils, ChangeBy;
    SpoilsAlone(At(run, x), StepAt(run, x), o);
  }

  lemma StrandsSticks(run: seq<Step>, x: int, o: ObjId)
    requires StrandsAt(run, x, o)
    ensures 0 <= x && Stuck(At(run, x + 1), o)
  {
    hide At, ReleasesAt, CompletesAt, Caused, ChangeAt, Apply, Spoils, Inv;
    if s :| ReleasesAt(run, x, o, s, false) {
      FailedReleaseSticks(run, x, o, s);
    } else {
      Starting(run, x, o);
      IdleIsUnowned(run, x, o);
      EffectAt(run, x, o);
      if CompletesAt(run, x, o) {
        ReleaseIs(run, x, o, 0, false);
      } else {
        DegradedSpoils(run, x, o);
      }
    }
  }

  lemma Starting(run: seq<Step>, x: int, o: ObjId)
    ensures CompletesAt(run, x, o) ==> 0 <= x
  {
    hide At, Completes;
  }

  /**
   * An instrument is "not IDLE but without owner" exactly if an earlier release of it had a failing
   * safe_state, or, while it was IDLE, an IINIT or IALIGN of it completed or one of the calls of
   * `IdleSpoiledIff` failed. It then stays so (`StuckForever`), so nobody can lock it until it is removed.
   */
  lemma StuckIffStranded(run: seq<Step>, j: int, o: ObjId)
    ensures Stuck(At(run, j), o) <==> exists x :: 0 <= x < j && StrandsAt(run, x, o)
  {
    hide At, StrandsAt, Stuck;
    if Stuck(At(run, j), o) {
      var x := StrandedBefore(run, j, o);
    }
    if x :| 0 <= x < j && StrandsAt(run, x, o) {
      StrandsSticks(run, x, o);
      StuckForever(run, x + 1, j, o);
    }
  }
}
