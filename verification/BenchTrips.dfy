/**
 * What becomes of a guard that has read a value outside its limits: the instrument is made FAULT,
 * unless the guard is ended or its loop is left by an exception first.
 */
module BenchTrips {
  import opened Wrappers
  import opened Store
  import opened Bench
  import opened BenchFrames
  import opened BenchInvariant
  import opened BenchEvents
  import opened BenchGuards

  /** Guard `g`, alive as task `t`, waits for its read. */
  predicate Reads(st: State, t: TaskId, g: Guard) {
    t in st.guards && st.guards[t] == g && g.phase.Reading?
  }

  /** Guard `g`, alive as task `t`, has read the forbidden value `text` and has not tripped yet. */
  predicate Due(st: State, t: TaskId, g: Guard, text: string) {
    t in st.guards && st.guards[t].(phase := Reading) == g
    && (st.guards[t].phase == Tripping(text)
        || (st.guards[t].phase.Noting? && st.guards[t].phase.verdict == Some(text)))
  }

  /** The reading is a number under the lower limit, if there is one. */
  predicate Below(number: Option<real>, low: Option<real>) {
    number.Some? && low.Some? && number.value < low.value
  }

  /** The reading is a number over the upper limit, if there is one. */
  predicate Above(number: Option<real>, high: Option<real>) {
    number.Some? && high.Some? && number.value > high.value
  }

  /** The trip of a guard: its instrument is FAULT, and its measurement says so. */
  predicate Trips(a: State, step: Step, b: State, t: TaskId, g: Guard, text: string) {
    step == GuardTrip(t) && t in a.guards && a.guards[t].phase == Tripping(text) && HasStatus(b, g.obj, Fault)
    && MeasKey(g.name, g.resource) in b.meas && b.meas[MeasKey(g.name, g.resource)] == Meas(Some(text), "GUARD_FAULT")
  }

  // ---------------------------------------------------------------- steps

  lemma ReadJudged(st: State, t: TaskId, g: Guard, text: string, number: Option<real>)
    requires Reads(st, t, g)
    ensures var b := ApplyGuardReturn(st, t, Returned(text), number);
            && (Violates(number, g.low, g.high) ==> Due(b, t, g, text))
            && (!Violates(number, g.low, g.high) ==> forall any :: !Due(b, t, g, any))
            && b.objs == st.objs && b.meas == st.meas[MeasKey(g.name, g.resource) := Meas(Some(text), "OK")]
  {
    hide Violates, Awaits, Audience, MeasKey;
  }

  /**
   * What a reading does: below the lower limit or above the upper one, each if there is one, the guard has to
   * trip; between the limits, both included, or if the text is no number, it has not. The value is noted, and
   * no instrument changes with the reading itself.
   */
  lemma ReadingDecides(st: State, t: TaskId, g: Guard, text: string, number: Option<real>)
    requires Reads(st, t, g)
    ensures var b := Apply(st, GuardReturn(t, Returned(text), number));
            && (Below(number, g.low) ==> Due(b, t, g, text))
            && (Above(number, g.high) ==> Due(b, t, g, text))
            && (!Below(number, g.low) && !Above(number, g.high) ==> forall any :: !Due(b, t, g, any))
            && b.objs == st.objs && b.meas == st.meas[MeasKey(g.name, g.resource) := Meas(Some(text), "OK")]
  {
    hide Apply, Due, MeasKey, ApplyGuardTick, ApplyGuardReturn, ApplyGuardTrip, ApplyGuardPublish, ApplyHealthTick,
      ApplyHealthReturn, ApplyHealthPublish;
    PerformsTask(st, GuardReturn(t, Returned(text), number));
    ReadJudged(st, t, g, text, number);
  }

  /** A read that fails with a DriverError or a timeout notes an ERROR without value and makes nothing due. */
  lemma FailedRead(st: State, t: TaskId, g: Guard, outcome: Outcome, number: Option<real>)
    requires Reads(st, t, g) && (outcome.Refused? || outcome.TimedOut?)
    ensures var b := Apply(st, GuardReturn(t, outcome, number));
            && (forall any :: !Due(b, t, g, any))
            && b.meas == st.meas[MeasKey(g.name, g.resource) := Meas(None, "ERROR")]
            && (if outcome.Refused? then b.objs == st.objs else g.obj in st.objs ==> HasStatus(b, g.obj, Unresponsive))
  {
    hide Apply, Violates, Awaits, Audience, MeasKey, ApplyGuardTick, ApplyGuardTrip, ApplyGuardPublish, ApplyHealthTick,
      ApplyHealthReturn, ApplyHealthPublish;
    PerformsTask(st, GuardReturn(t, outcome, number));
  }

  lemma TripOfDue(st: State, t: TaskId, g: Guard, text: string, u: TaskId)
    requires Due(st, t, g, text) && g.obj in st.objs
    ensures Due(ApplyGuardTrip(st, u), t, g, text) || Trips(st, GuardTrip(u), ApplyGuardTrip(st, u), t, g, text)
  {
    hide TripPhase, MeasKey;
  }

  lemma TickOfDue(st: State, t: TaskId, g: Guard, text: string, u: TaskId)
    ensures Due(st, t, g, text) ==> Due(ApplyGuardTick(st, u), t, g, text)
  {
  }

  lemma ReturnOfDue(st: State, t: TaskId, g: Guard, text: string, u: TaskId, outcome: Outcome, number: Option<real>)
    ensures Due(st, t, g, text) ==> Due(ApplyGuardReturn(st, u, outcome, number), t, g, text)
  {
    hide WriteMeasSpec, AfterFailure, Violates, NotePhase;
  }

  lemma PublishOfDue(st: State, t: TaskId, g: Guard, text: string, u: TaskId)
    ensures Due(st, t, g, text) ==> Due(ApplyGuardPublish(st, u), t, g, text) || Crashes(st, GuardPublish(u), t)
  {
    hide Audience;
  }

  lemma BackgroundOfDue(st: State, step: Step, t: TaskId, g: Guard, text: string)
    requires Due(st, t, g, text) && g.obj in st.objs && IsBackground(step)
    ensures var b := ApplyBackground(st, step);
            Due(b, t, g, text) || Crashes(st, step, t) || Trips(st, step, b, t, g, text)
  {
    hide ApplyGuardTick, ApplyGuardTrip, ApplyGuardReturn, ApplyGuardPublish, ApplyHealthTick, ApplyHealthReturn,
      ApplyHealthPublish, Crashes, Trips;
    if step.GuardTick? {
      TickOfDue(st, t, g, text, step.task);
    } else if step.GuardReturn? {
      ReturnOfDue(st, t, g, text, step.task, step.outcome, step.number);
    } else if step.GuardPublish? {
      PublishOfDue(st, t, g, text, step.task);
    } else if step.GuardTrip? {
      TripOfDue(st, t, g, text, step.task);
    }
  }

  lemma DueIsAlive(st: State, t: TaskId, g: Guard, text: string)
    requires Inv(st) && Due(st, t, g, text)
    ensures Entry(st.watches, g.name, g.resource, t) && t in st.guards && g.obj in st.objs
  {
    hide Inv, Entry;
    AliveIsListed(st, g.name, g.resource, t);
  }

  /** A guard that has to trip still has to after a step, or the step ends it, or is its trip. */
  lemma StepOfDue(st: State, step: Step, t: TaskId, g: Guard, text: string)
    requires Inv(st) && Due(st, t, g, text)
    ensures var b := Apply(st, step);
            || Due(b, t, g, text) || Trips(st, step, b, t, g, text)
            || Crashes(st, step, t) || Ends(st, step, g.name, g.resource)
  {
    hide Inv, Apply, ApplyBackground, Crashes, Ends, Trips, Entry;
    DueIsAlive(st, t, g, text);
    if IsBackground(step) {
      BackgroundIs(st, step);
      BackgroundOfDue(st, step, t, g, text);
    } else {
      AnyEntry(st, step, g.name, g.resource, t);
    }
  }

  lemma TrippedStep(st: State, t: TaskId, g: Guard, text: string)
    ensures var b := Apply(st, GuardTrip(t)); Trips(st, GuardTrip(t), b, t, g, text) ==> !Due(b, t, g, text)
  {
    hide Apply, HasStatus, MeasKey, WriteMeasSpec, WithStatus, Awaits, Audience, ApplyGuardTick, ApplyGuardReturn,
      ApplyGuardPublish, ApplyHealthTick, ApplyHealthReturn, ApplyHealthPublish;
    BackgroundIs(st, GuardTrip(t));
  }

  /** Each of the three leaves nothing to do. */
  lemma DecidedStep(st: State, step: Step, t: TaskId, g: Guard, text: string)
    requires Inv(st) && Inv(Apply(st, step)) && Due(st, t, g, text)
    requires Trips(st, step, Apply(st, step), t, g, text) || Crashes(st, step, t) || Ends(st, step, g.name, g.resource)
    ensures !Due(Apply(st, step), t, g, text)
  {
    hide Inv, Apply, Ends, Crashes, Due, Entry, HasStatus, MeasKey;
    DueIsAlive(st, t, g, text);
    AnyEntry(st, step, g.name, g.resource, t);
    if Due(Apply(st, step), t, g, text) {
      DueIsAlive(Apply(st, step), t, g, text);
      TrippedStep(st, t, g, text);
    }
  }

  // ---------------------------------------------------------------- runs

  ghost predicate DueAt(run: seq<Step>, x: int, t: TaskId, g: Guard, text: string) {
    Due(At(run, x), t, g, text)
  }

  ghost predicate TripsAt(run: seq<Step>, x: int, t: TaskId, g: Guard, text: string) {
    0 <= x < |run| && Trips(At(run, x), StepAt(run, x), At(run, x + 1), t, g, text)
  }

  ghost predicate StillDue(run: seq<Step>, i: int, j: int, t: TaskId, g: Guard, text: string) {
    forall y :: i <= y <= j ==> DueAt(run, y, t, g, text)
  }

  /** Step `x` is the first thing that happens to a guard that has had to trip since state `i`. */
  ghost predicate Decides(run: seq<Step>, i: int, x: int, t: TaskId, g: Guard, text: string) {
    StillDue(run, i, x, t, g, text)
    && (TripsAt(run, x, t, g, text) || CrashesAt(run, x, t) || EndsAt(run, x, g.name, g.resource))
  }

  ghost predicate Decided(run: seq<Step>, i: int, j: int, t: TaskId, g: Guard, text: string) {
    exists x :: i <= x < j && Decides(run, i, x, t, g, text)
  }

  /** One step of a run, as far as it concerns a guard that has to trip. */
  lemma DueStepAt(run: seq<Step>, x: int, t: TaskId, g: Guard, text: string)
    requires 0 <= x && DueAt(run, x, t, g, text)
    ensures DueAt(run, x + 1, t, g, text) <==>
              !(TripsAt(run, x, t, g, text) || CrashesAt(run, x, t) || EndsAt(run, x, g.name, g.resource))
  {
    hide At, Apply, Inv, Due, Trips, Crashes, Ends;
    AtStep(run, x);
    if x < |run| {
      ReachableInv(run, x);
      ReachableInv(run, x + 1);
      StepOfDue(At(run, x), StepAt(run, x), t, g, text);
      if TripsAt(run, x, t, g, text) || CrashesAt(run, x, t) || EndsAt(run, x, g.name, g.resource) {
        DecidedStep(At(run, x), StepAt(run, x), t, g, text);
      }
    }
  }

  lemma {:induction false} DueUntil(run: seq<Step>, i: int, j: int, t: TaskId, g: Guard, text: string)
    requires 0 <= i <= j && DueAt(run, i, t, g, text)
    ensures StillDue(run, i, j, t, g, text) <==> !Decided(run, i, j, t, g, text)
    decreases j - i
  {
    hide DueAt, TripsAt, CrashesAt, EndsAt;
    if i < j {
      DueUntil(run, i, j - 1, t, g, text);
      if StillDue(run, i, j - 1, t, g, text) {
        DueStepAt(run, j - 1, t, g, text);
        assert DueAt(run, j, t, g, text) || Decides(run, i, j - 1, t, g, text);
      }
      if Decided(run, i, j, t, g, text) {
        var x :| i <= x < j && Decides(run, i, x, t, g, text);
        DueStepAt(run, x, t, g, text);
      }
    }
  }

  /**
   * After a read outside the limits the guard has to trip until one of three things happens, and no
   * longer: it trips, and the instrument is FAULT with the value noted; its entry is ended; or writing
   * an event raises, and the value has no consequence.
   */
  lemma ViolationTripsIff(run: seq<Step>, i: int, j: int, t: TaskId, g: Guard, text: string, number: Option<real>)
    requires 0 <= i < j && i < |run| && StepAt(run, i) == GuardReturn(t, Returned(text), number)
    requires Reads(At(run, i), t, g) && (Below(number, g.low) || Above(number, g.high))
    ensures StillDue(run, i + 1, j, t, g, text) <==> !Decided(run, i + 1, j, t, g, text)
  {
    hide At, Apply, Due, Reads, StillDue, Decided;
    AtStep(run, i);
    ReadingDecides(At(run, i), t, g, text, number);
    DueUntil(run, i + 1, j, t, g, text);
  }
}
