/**
 * Concrete runs in which a guard is gone although its instrument is READY and owned: ended by a
 * stranger, left by a driver's exception, and left because a subscriber went while it was writing.
 */
module GuardWitnesses {
  import opened Wrappers
  import opened Store
  import opened Bench
  import opened BenchFrames
  import opened BenchEvents
  import opened BenchGuards
  import opened BenchTrips
  import opened BenchWitnesses
  import Events
  import opened Text

  // ---------------------------------------------------------------- a guard is started

  const TASK: TaskId := 0

  /** `psu` is READY with the resource `CH1` and belongs to session 1. */
  function ReadyPsu(): State {
    Psu(Instrument("psu", Ready, Some(ALICE), ["CH1"], 0), Waiting, None)
  }

  /** A guard of `CH1`. */
  function Limited(low: Option<real>, high: Option<real>, phase: Phase): Guard {
    Guard(PSU, "psu", "CH1", low, high, phase)
  }

  function Guarded(low: Option<real>, high: Option<real>, phase: Phase): State {
    ReadyPsu().(watches := map["psu" := map["CH1" := TASK]], guards := map[TASK := Limited(low, high, phase)],
                nextTask := 1)
  }

  /** The guard with the upper limit 5. */
  function Limit(phase: Phase): Guard {
    Limited(None, Some(5.0), phase)
  }

  function Watched(phase: Phase): State {
    Guarded(None, Some(5.0), phase)
  }

  /** The instrument is READY and belongs to session 1. */
  predicate Usable(st: State) {
    HasStatus(st, PSU, Ready) && HasOwner(st, PSU, Some(ALICE))
  }

  function Setup(low: Option<real>, high: Option<real>): seq<Step> {
    [Connect, Connect, AddInstrument("psu", true, true), LockInstruments(ALICE, ["psu"]),
     BeginInit(ALICE, "psu", false), CONNECTED, InitReturn(Returned(""), ["CH1"]),
     Watch(ALICE, "psu", "CH1", low, high)]
  }

  const SETUP: seq<Step> := Setup(None, Some(5.0))

  lemma SetupSteps()
    ensures ApplyBeginInit(Opened(), ALICE, "psu", false) == Opened().(command := Call(ALICE, 2))
    ensures ApplyInitReturn(Opened().(command := Call(ALICE, 2)), Returned(""), [])
            == Opened().(command := Call(ALICE, 1))
    ensures ApplyInitReturn(Opened().(command := Call(ALICE, 1)), Returned(""), ["CH1"]) == ReadyPsu()
  {
  }

  lemma GuardStarted(low: Option<real>, high: Option<real>)
    ensures ApplyWatch(ReadyPsu(), ALICE, "psu", "CH1", low, high) == Guarded(low, high, Sleeping)
  {
    assert OwnedBy(ReadyPsu(), "psu", ALICE);
    assert StopGuard(ReadyPsu(), "psu", "CH1") == ReadyPsu();
  }

  lemma SetsUp(run: seq<Step>, low: Option<real>, high: Option<real>)
    ensures Setup(low, high) <= run ==> At(run, 8) == Guarded(low, high, Sleeping)
  {
    hide At, Apply, Opened, ReadyPsu, Guarded, Call, ApplyBeginInit, ApplyInitReturn, ApplyWatch;
    OpensBench(run);
    SetupSteps();
    GuardStarted(low, high);
    PerformsCall(Opened(), BeginInit(ALICE, "psu", false));
    AtStep(run, 4);
    PerformsCall(At(run, 5), CONNECTED);
    AtStep(run, 5);
    PerformsCall(At(run, 6), InitReturn(Returned(""), ["CH1"]));
    AtStep(run, 6);
    PerformsCall(ReadyPsu(), Watch(ALICE, "psu", "CH1", low, high));
    AtStep(run, 7);
  }

  // ---------------------------------------------------------------- a lower limit

  /** A guard with the lower limit 1 and no upper one reads the number `x`. */
  function LowReading(text: string, x: real): seq<Step> {
    Setup(Some(1.0), None) + [GuardTick(TASK), GuardReturn(TASK, Returned(text), Some(x)), GuardTrip(TASK)]
  }

  /** The state after the read. */
  function Judged(text: string, x: real): State {
    Guarded(Some(1.0), None, if x < 1.0 then Tripping(text) else Sleeping).(
      meas := map[MeasKey("psu", "CH1") := Meas(Some(text), "OK")])
  }

  lemma ReadingSteps(text: string, x: real)
    ensures ApplyGuardTick(Guarded(Some(1.0), None, Sleeping), TASK) == Guarded(Some(1.0), None, Reading)
    ensures ApplyGuardReturn(Guarded(Some(1.0), None, Reading), TASK, Returned(text), Some(x)) == Judged(text, x)
    ensures var b := ApplyGuardTrip(Judged(text, x), TASK);
            if x < 1.0 then HasStatus(b, PSU, Fault) else b == Judged(text, x) && Usable(b) && TASK in b.guards
  {
    hide MeasKey;
  }

  lemma ReadingRun(run: seq<Step>, text: string, x: real)
    ensures LowReading(text, x) <= run ==>
              Setup(Some(1.0), None) <= run && StepAt(run, 8) == GuardTick(TASK) && |run| >= 11
              && StepAt(run, 9) == GuardReturn(TASK, Returned(text), Some(x)) && StepAt(run, 10) == GuardTrip(TASK)
  {
    assert LowReading(text, x) <= run ==> forall k :: 8 <= k < 11 ==> run[k] == LowReading(text, x)[k];
  }

  /** Every number under 1, 0.5 say, makes the instrument FAULT; none from 1 on, such as 3, does. */
  lemma LowerLimitTrips(run: seq<Step>, text: string, x: real)
    requires LowReading(text, x) <= run
    ensures if x < 1.0 then HasStatus(At(run, 11), PSU, Fault) else Usable(At(run, 11)) && TASK in At(run, 11).guards
  {
    hide At, Apply, StepAt, Setup, LowReading, Guarded, Judged, Usable, HasStatus, ApplyGuardTick, ApplyGuardReturn,
      ApplyGuardTrip, ApplyGuardPublish, ApplyHealthTick, ApplyHealthReturn, ApplyHealthPublish;
    ReadingRun(run, text, x);
    SetsUp(run, Some(1.0), None);
    ReadingSteps(text, x);
    PerformsTask(At(run, 8), GuardTick(TASK));
    AtStep(run, 8);
    PerformsTask(At(run, 9), GuardReturn(TASK, Returned(text), Some(x)));
    AtStep(run, 9);
    PerformsTask(At(run, 10), GuardTrip(TASK));
    AtStep(run, 10);
  }

  // ---------------------------------------------------------------- ended by a stranger

  const STRANGER: seq<Step> := SETUP + [BeginUnlock(BOB, ["psu"], false), UnlockNext(true)]

  function Entered(): State {
    Watched(Sleeping).(command := Some(Unlocking(BOB, ["psu"], false)))
  }

  lemma StrangerSteps()
    ensures ApplyBeginUnlock(Watched(Sleeping), BOB, ["psu"], false) == Entered()
    ensures Alive(Watched(Sleeping), "psu", "CH1", TASK) && Ends(Entered(), UnlockNext(true), "psu", "CH1")
  {
  }

  lemma StrangerUnlocks()
    ensures Usable(ApplyUnlockNext(Entered(), true))
  {
    hide StopGuards;
    assert !OwnedBy(Entered(), "psu", BOB);
  }

  /**
   * A guard is said to run as long as its instrument is READY. Session 2 owns nothing and sends IUNLOCK
   * with the name: the guard is gone for good, while the instrument is READY and belongs to session 1.
   */
  lemma StrangerEndsGuard(run: seq<Step>, k: int)
    requires STRANGER <= run && 10 <= k
    ensures TASK in At(run, 8).guards && EndsAt(run, 9, "psu", "CH1") && Usable(At(run, 10))
    ensures TASK !in At(run, k).guards
  {
    hide At, Apply, Guarded, Entered, Usable, Ends, ApplyBeginUnlock, ApplyUnlockNext, CrashesAt;
    assert SETUP <= run && run[8] == STRANGER[8] && run[9] == STRANGER[9];
    SetsUp(run, None, Some(5.0));
    StrangerSteps();
    StrangerUnlocks();
    Performs(Watched(Sleeping), BeginUnlock(BOB, ["psu"], false));
    AtStep(run, 8);
    Performs(Entered(), UnlockNext(true));
    AtStep(run, 9);
    GuardLivesIff(run, 8, k, "psu", "CH1", TASK);
  }

  // ---------------------------------------------------------------- left by an exception

  function Crash(): seq<Step> {
    SETUP + [GuardTick(TASK), GuardReturn(TASK, Crashed("boom"), None)]
  }

  /** The entry stays listed, the instrument stays as it is, but the guard is gone. */
  predicate LeftOpen(st: State) {
    Usable(st) && TASK !in st.guards && "psu" in st.watches && st.watches["psu"] == map["CH1" := TASK]
  }

  lemma CrashSteps()
    ensures ApplyGuardTick(Watched(Sleeping), TASK) == Watched(Reading)
    ensures Crashes(Watched(Reading), GuardReturn(TASK, Crashed("boom"), None), TASK)
    ensures LeftOpen(ApplyGuardReturn(Watched(Reading), TASK, Crashed("boom"), None))
  {
  }

  lemma CrashRun(run: seq<Step>)
    ensures Crash() <= run ==>
              SETUP <= run && StepAt(run, 8) == GuardTick(TASK) && |run| >= 10
              && StepAt(run, 9) == GuardReturn(TASK, Crashed("boom"), None)
  {
    assert Crash() <= run ==> run[8] == Crash()[8] && run[9] == Crash()[9];
  }

  /** A driver's exception ends the loop; the entry stays listed and IWATCHES goes on showing it. */
  lemma ReadEndsGuard(run: seq<Step>)
    requires Crash() <= run
    ensures CrashesAt(run, 9, TASK) && LeftOpen(At(run, 10))
  {
    CrashRun(run);
    hide Crash, At, Apply, StepAt, Guarded, Crashes, LeftOpen, ApplyGuardTick, ApplyGuardReturn, ApplyGuardTrip,
      ApplyGuardPublish, ApplyHealthTick, ApplyHealthReturn, ApplyHealthPublish;
    SetsUp(run, None, Some(5.0));
    CrashSteps();
    PerformsTask(Watched(Sleeping), GuardTick(TASK));
    AtStep(run, 8);
    PerformsTask(Watched(Reading), GuardReturn(TASK, Crashed("boom"), None));
    AtStep(run, 9);
  }

  // ---------------------------------------------------------------- left while writing

  const SUB: (Session, string) := (BOB, "meas")

  function Disturbance(): seq<Step> {
    SETUP + [Subscribe(BOB, "meas"), GuardTick(TASK), GuardReturn(TASK, Returned("9.9"), Some(9.9)),
             Unsubscribe(BOB, "meas"), GuardPublish(TASK)]
  }

  /** The guard in `phase`, with the subscriptions and the measurements that there are. */
  function Heard(phase: Phase, subs: set<(Session, string)>, meas: map<string, Meas>): State {
    Watched(phase).(subs := subs, meas := meas)
  }

  function NotedMeas(): map<string, Meas> {
    WriteMeasSpec(map[], "psu", "CH1", Some("9.9"), "OK")
  }

  const WRITING: Phase := Noting(1, Some("9.9"))

  lemma MeasChannel()
    ensures Events.IsValidChannel("meas") && Events.ParseChannel("meas") == ("meas", None)
  {
    assert FindColon("meas", 4) == 4 && FindColon("meas", 3) == 4 && FindColon("meas", 2) == 4;
    assert FindColon("meas", 1) == 4 && FindColon("meas", 0) == 4;
    assert "meas"[..4] == "meas";
  }

  lemma AllListen(subs: set<(Session, string)>)
    requires forall sub :: sub in subs ==> Events.ParseChannel(sub.1).0 == "meas"
    ensures Audience(subs, "meas") == |subs|
  {
    hide Events.ParseChannel;
    assert (set sub | sub in subs && Events.ParseChannel(sub.1).0 == "meas") == subs;
  }

  lemma Audiences()
    ensures Audience({SUB}, "meas") == 1 && Audience({}, "meas") == 0
    ensures Awaits({SUB}, "meas", Some("psu" + ":" + "CH1"))
  {
    MeasChannel();
    hide Events.ParseChannel, Audience;
    AllListen({SUB});
    AllListen({});
    assert SUB in {SUB} && Events.Admits(Events.Sub(SUB.0, SUB.1), Some("psu" + ":" + "CH1"));
  }

  lemma ListeningSteps()
    ensures ApplySubscribe(Watched(Sleeping), BOB, "meas") == Heard(Sleeping, {SUB}, map[])
    ensures ApplyUnsubscribe(Heard(WRITING, {SUB}, NotedMeas()), BOB, "meas") == Heard(WRITING, {}, NotedMeas())
  {
    MeasChannel();
    hide Events.IsValidChannel, NotedMeas;
    assert {} + {SUB} == {SUB} && {SUB} - {SUB} == {};
  }

  lemma WritingSteps()
    ensures ApplyGuardTick(Heard(Sleeping, {SUB}, map[]), TASK) == Heard(Reading, {SUB}, map[])
    ensures ApplyGuardReturn(Heard(Reading, {SUB}, map[]), TASK, Returned("9.9"), Some(9.9))
            == Heard(WRITING, {SUB}, NotedMeas())
    ensures Due(Heard(WRITING, {SUB}, NotedMeas()), TASK, Limit(Reading), "9.9")
  {
    Audiences();
    hide Audience, Awaits, WriteMeasSpec;
  }

  lemma DisturbedEnd()
    ensures Crashes(Heard(WRITING, {}, NotedMeas()), GuardPublish(TASK), TASK)
    ensures LeftOpen(ApplyGuardPublish(Heard(WRITING, {}, NotedMeas()), TASK))
  {
    Audiences();
    hide Audience, NotedMeas;
  }

  lemma DisturbedSteps(run: seq<Step>)
    ensures Disturbance() <= run ==>
              SETUP <= run && StepAt(run, 8) == Subscribe(BOB, "meas") && StepAt(run, 9) == GuardTick(TASK)
              && StepAt(run, 10) == GuardReturn(TASK, Returned("9.9"), Some(9.9))
              && StepAt(run, 11) == Unsubscribe(BOB, "meas") && StepAt(run, 12) == GuardPublish(TASK) && |run| >= 13
  {
    assert Disturbance() <= run ==> forall x :: 8 <= x < 13 ==> run[x] == Disturbance()[x];
  }

  lemma StartsWriting(run: seq<Step>)
    ensures Disturbance() <= run ==> At(run, 11) == Heard(WRITING, {SUB}, NotedMeas())
  {
    hide Disturbance, At, Apply, StepAt, Guarded, Heard, NotedMeas, Limit, Due, ApplySubscribe, ApplyUnsubscribe,
      ApplyGuardTick, ApplyGuardReturn;
    DisturbedSteps(run);
    SetsUp(run, None, Some(5.0));
    ListeningSteps();
    WritingSteps();
    Performs(At(run, 8), Subscribe(BOB, "meas"));
    AtStep(run, 8);
    PerformsTask(At(run, 9), GuardTick(TASK));
    AtStep(run, 9);
    PerformsTask(At(run, 10), GuardReturn(TASK, Returned("9.9"), Some(9.9)));
    AtStep(run, 10);
  }

  /**
   * The guard reads 9.9 against the limit 5, and while it writes the event of that read its only
   * subscriber goes: the guard is gone, no trip follows, and the instrument stays READY.
   */
  lemma SubscriberEndsGuard(run: seq<Step>)
    requires Disturbance() <= run
    ensures DueAt(run, 11, TASK, Limit(Reading), "9.9") && CrashesAt(run, 12, TASK) && LeftOpen(At(run, 13))
  {
    hide Disturbance, At, Apply, StepAt, Heard, NotedMeas, Limit, Due, Crashes, LeftOpen, ApplySubscribe,
      ApplyUnsubscribe, ApplyGuardTick, ApplyGuardReturn, ApplyGuardTrip, ApplyGuardPublish, ApplyHealthTick,
      ApplyHealthReturn, ApplyHealthPublish, ApplyUnlockNext, ApplyCloseNext;
    DisturbedSteps(run);
    StartsWriting(run);
    ListeningSteps();
    WritingSteps();
    DisturbedEnd();
    Performs(At(run, 11), Unsubscribe(BOB, "meas"));
    AtStep(run, 11);
    PerformsTask(At(run, 12), GuardPublish(TASK));
    AtStep(run, 12);
  }
}
