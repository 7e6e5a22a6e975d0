/**
 * Concrete runs that show where the conditions of the theorems are needed, and where the
 * documentation promises more than the code keeps.
 */
module BenchWitnesses {
  import opened Wrappers
  import opened Store
  import opened Bench
  import opened BenchFrames
  import opened BenchInvariant
  import opened BenchEvents
  import opened BenchSafety
  import opened BenchMeasurements
  import opened BenchSessions

  // ---------------------------------------------------------------- the opening of the runs

  const PSU: ObjId := 0
  const ALICE: Session := 1
  const BOB: Session := 2

  function One(): State {
    INIT.(live := {ALICE}, nextSession := 2)
  }

  function Two(): State {
    INIT.(live := {ALICE, BOB}, nextSession := 3)
  }

  /** A bench with the instrument `psu` and a health task for it. */
  function Psu(inst: Instrument, phase: HealthPhase, command: Option<Command>): State {
    Two().(objs := map[PSU := inst], registry := map["psu" := PSU], health := map["psu" := HealthTask(PSU, phase)],
           command := command, nextObj := 1)
  }

  function Inst(status: Status, owner: Option<Session>, failures: nat): Instrument {
    Instrument("psu", status, owner, [], failures)
  }

  function Added(): State {
    Psu(Inst(Idle, None, 0), Waiting, None)
  }

  function Opened(): State {
    Psu(Inst(Locked, Some(ALICE), 0), Waiting, None)
  }

  /** Two sessions connect, `psu` is added, and the first locks it. */
  const OPENING: seq<Step> := [
    Connect, Connect, AddInstrument("psu", true, true), LockInstruments(ALICE, ["psu"])]

  lemma OpeningSteps()
    ensures ApplyConnect(INIT) == One() && ApplyConnect(One()) == Two()
    ensures ApplyAdd(Two(), "psu", true, true) == Added() && ApplyLock(Added(), ALICE, ["psu"]) == Opened()
  {
    assert Lockable(Added(), ALICE, "psu");
    assert AcquireOne(Added(), ALICE, PSU) == Opened();
    assert ["psu"][1..] == [];
  }

  lemma OpensBench(run: seq<Step>)
    ensures OPENING <= run ==> At(run, 4) == Opened()
  {
    hide At, Apply, One, Two, Added, Opened, ApplyAdd, ApplyLock, ApplyConnect;
    OpeningSteps();
    Performs(INIT, Connect);
    Performs(One(), Connect);
    Performs(Two(), AddInstrument("psu", true, true));
    Performs(Added(), LockInstruments(ALICE, ["psu"]));
    AtStep(run, 0);
    AtStep(run, 1);
    AtStep(run, 2);
    AtStep(run, 3);
  }

  // ---------------------------------------------------------------- a fault that is overwritten

  /** An IINIT of `psu` without configuration, before its call `calls`. */
  function Call(s: Session, calls: nat): Option<Command> {
    Some(Initing(s, PSU, calls))
  }

  const CONNECTED: Step := InitReturn(Returned(""), [])

  lemma InitSteps(st: State, s: Session, n: Name)
    requires Names(st, n, PSU) && PSU in st.objs
    ensures HasStatus(st, PSU, Locked) && CanStart(st, s) ==>
              ApplyBeginInit(st, s, n, false) == st.(command := Call(s, 2))
    ensures st.command == Call(s, 2) ==> ApplyInitReturn(st, Returned(""), []) == st.(command := Call(s, 1))
    ensures st.command == Call(s, 1) ==>
              ApplyInitReturn(st, Returned(""), []) == st.(objs := MarkReady(st.objs, PSU, []), command := None)
  {
    hide MarkReady;
  }

  const LATE_READY: seq<Step> := [
    Connect, Connect, AddInstrument("psu", true, true), LockInstruments(ALICE, ["psu"]), BeginInit(ALICE, "psu", false),
    HealthTick("psu"), HealthReturn("psu", TimedOut), CONNECTED, CONNECTED]

  /** A health ping of `psu` times out, whatever command is in flight. */
  lemma PingSteps(command: Option<Command>)
    ensures ApplyHealthTick(Psu(Inst(Locked, Some(ALICE), 0), Waiting, command), "psu")
            == Psu(Inst(Locked, Some(ALICE), 0), Asking, command)
    ensures ApplyHealthReturn(Psu(Inst(Locked, Some(ALICE), 0), Asking, command), "psu", TimedOut)
            == Psu(Inst(Unresponsive, Some(ALICE), 1), Waiting, command)
  {
    hide Awaits, Audience;
  }

  function Lost(command: Option<Command>): State {
    Psu(Inst(Unresponsive, Some(ALICE), 1), Waiting, command)
  }

  lemma PingLost(run: seq<Step>, x: int, command: Option<Command>)
    requires 0 <= x < |run| - 1
    requires StepAt(run, x) == HealthTick("psu") && StepAt(run, x + 1) == HealthReturn("psu", TimedOut)
    requires At(run, x) == Opened().(command := command)
    ensures At(run, x + 2) == Lost(command)
  {
    hide At, Apply, StepAt, Inst, ApplyHealthTick, ApplyHealthReturn;
    PingSteps(command);
    AtStep(run, x);
    AtStep(run, x + 1);
    PerformsTask(At(run, x), HealthTick("psu"));
    PerformsTask(At(run, x + 1), HealthReturn("psu", TimedOut));
  }

  lemma LateReady()
    ensures InFault(Lost(Call(ALICE, 2)), PSU) && InFlight(Lost(Call(ALICE, 2)), PSU)
    ensures ApplyBeginInit(Opened(), ALICE, "psu", false) == Opened().(command := Call(ALICE, 2))
    ensures ApplyInitReturn(Lost(Call(ALICE, 2)), Returned(""), []) == Lost(Call(ALICE, 1))
    ensures HasStatus(ApplyInitReturn(Lost(Call(ALICE, 1)), Returned(""), []), PSU, Ready)
  {
    hide ApplyBeginInit, ApplyInitReturn;
    InitSteps(Opened(), ALICE, "psu");
    InitSteps(Lost(Call(ALICE, 2)), ALICE, "psu");
    InitSteps(Lost(Call(ALICE, 1)), ALICE, "psu");
  }

  /**
   * The exclusion in `FaultExit` is needed: a health ping that times out while an IINIT is in
   * flight makes the instrument UNRESPONSIVE, and the IINIT makes it READY without reset or release.
   */
  lemma InitOverwritesFault(run: seq<Step>)
    requires run == LATE_READY
    ensures InFault(At(run, 7), PSU) && InFlight(At(run, 7), PSU) && HasStatus(At(run, 9), PSU, Ready)
    ensures StepAt(run, 7) == CONNECTED && StepAt(run, 8) == CONNECTED
  {
    hide At, Apply, Opened, Lost, InFault, InFlight, HasStatus, ApplyBeginInit, ApplyInitReturn;
    LateReady();
    OpensBench(run);
    PerformsCall(Opened(), BeginInit(ALICE, "psu", false));
    AtStep(run, 4);
    PingLost(run, 5, Call(ALICE, 2));
    PerformsCall(Lost(Call(ALICE, 2)), CONNECTED);
    AtStep(run, 7);
    PerformsCall(Lost(Call(ALICE, 1)), CONNECTED);
    AtStep(run, 8);
  }

  // ---------------------------------------------------------------- a reset by a stranger

  /** IRESET of a broken instrument succeeds for every connected session, whoever owns it. */
  lemma ResetsIff(st: State, s: Session, n: Name, o: ObjId, connects: bool)
    requires Names(st, n, o) && InFault(st, o)
    ensures var b := ApplyReset(st, s, n, connects);
            && (HasStatus(b, o, Locked) <==> CanStart(st, s) && connects)
            && forall owner :: HasOwner(b, o, owner) <==> HasOwner(st, o, owner)
  {
  }

  const FOREIGN_RESET: seq<Step> := [
    Connect, Connect, AddInstrument("psu", true, true), LockInstruments(ALICE, ["psu"]), HealthTick("psu"),
    HealthReturn("psu", TimedOut), Reset(BOB, "psu", true)]

  lemma LostIsReset()
    ensures HasStatus(Lost(None), PSU, Unresponsive) && HasOwner(Lost(None), PSU, Some(ALICE))
    ensures var b := ApplyReset(Lost(None), BOB, "psu", true);
            HasStatus(b, PSU, Locked) && HasOwner(b, PSU, Some(ALICE))
    ensures Opened().(command := None) == Opened()
  {
    hide ApplyReset;
    ResetsIff(Lost(None), BOB, "psu", PSU, true);
    assert HasOwner(Lost(None), PSU, Some(ALICE));
  }

  /** IRESET is said to require the owner: session 2 resets the instrument of session 1. */
  lemma StrangerResets(run: seq<Step>)
    requires run == FOREIGN_RESET
    ensures HasStatus(At(run, 6), PSU, Unresponsive) && HasOwner(At(run, 6), PSU, Some(ALICE))
    ensures HasStatus(At(run, 7), PSU, Locked) && HasOwner(At(run, 7), PSU, Some(ALICE))
  {
    hide At, Apply, Opened, Lost, HasStatus, HasOwner, ApplyReset;
    OpensBench(run);
    LostIsReset();
    PingLost(run, 4, None);
    PerformsCall(Lost(None), Reset(BOB, "psu", true));
    AtStep(run, 6);
  }

  // ---------------------------------------------------------------- READY without owner

  const UNOWNED_READY: seq<Step> := [
    Connect, Connect, AddInstrument("psu", true, true), LockInstruments(ALICE, ["psu"]), BeginInit(BOB, "psu", false),
    StartClose(ALICE, ["psu"]), CloseNext(ALICE, true), CONNECTED, CONNECTED]

  function Leaving(): State {
    Opened().(command := Call(BOB, 2), live := {BOB}, closing := map[ALICE := Releasing(["psu"])])
  }

  function Left(calls: nat): State {
    Added().(command := Call(BOB, calls), live := {BOB}, closing := map[ALICE := Releasing([])])
  }

  lemma OwnerLeaves()
    ensures ApplyStartClose(Opened().(command := Call(BOB, 2)), ALICE, ["psu"]) == Leaving()
    ensures ApplyCloseNext(Leaving(), ALICE, true) == Left(2)
  {
    assert ["psu"][1..] == [];
  }

  lemma LeftReady()
    ensures ApplyBeginInit(Opened(), BOB, "psu", false) == Opened().(command := Call(BOB, 2))
    ensures ApplyInitReturn(Left(2), Returned(""), []) == Left(1)
    ensures var b := ApplyInitReturn(Left(1), Returned(""), []); HasStatus(b, PSU, Ready) && HasOwner(b, PSU, None)
  {
    hide ApplyBeginInit, ApplyInitReturn;
    InitSteps(Opened(), BOB, "psu");
    InitSteps(Left(2), BOB, "psu");
    InitSteps(Left(1), BOB, "psu");
  }

  /**
   * IINIT asks for no ownership, and the cleanup of the owner does not wait for it: an instrument
   * released to IDLE becomes READY with no owner. After `UNOWNED_READY` it is so in every
   * continuation.
   */
  lemma ReadyWithoutOwner(run: seq<Step>, k: int)
    requires UNOWNED_READY <= run && 9 <= k
    ensures HasStatus(At(run, 9), PSU, Ready) && HasOwner(At(run, 9), PSU, None)
    ensures Stuck(At(run, k), PSU)
  {
    hide At, Apply, Opened, Leaving, Left, ApplyBeginInit, ApplyInitReturn, ApplyStartClose, ApplyCloseNext;
    OpensBench(run);
    LeftReady();
    OwnerLeaves();
    PerformsCall(Opened(), BeginInit(BOB, "psu", false));
    AtStep(run, 4);
    Performs(At(run, 5), StartClose(ALICE, ["psu"]));
    AtStep(run, 5);
    Performs(Leaving(), CloseNext(ALICE, true));
    AtStep(run, 6);
    PerformsCall(Left(2), CONNECTED);
    AtStep(run, 7);
    PerformsCall(Left(1), CONNECTED);
    AtStep(run, 8);
    StuckForever(run, 9, k, PSU);
  }

  // ---------------------------------------------------------------- an instrument left behind

  const CAM: ObjId := 2

  const ABORTED: seq<Step> := [
    Connect, AddInstrument("a", false, true), AddInstrument("b", false, true), AddInstrument("c", false, true),
    LockInstruments(ALICE, ["a", "c"]), StartClose(ALICE, ["a", "b", "c"]), CloseNext(ALICE, true),
    RemoveInstrument("b"), CloseNext(ALICE, true)]

  function Owned(n: Name, owner: Option<Session>): Instrument {
    Instrument(n, if owner.Some? then Locked else Idle, owner, [], 0)
  }

  function AddedA(): State {
    One().(objs := map[0 := Owned("a", None)], registry := map["a" := 0], nextObj := 1)
  }

  function AddedB(): State {
    One().(objs := map[0 := Owned("a", None), 1 := Owned("b", None)], registry := map["a" := 0, "b" := 1], nextObj := 2)
  }

  /** Instruments `a`, `b` and `c`; `a` and `c` belong to the given sessions. */
  function Three(a: Option<Session>, c: Option<Session>): State {
    One().(objs := map[0 := Owned("a", a), 1 := Owned("b", None), CAM := Owned("c", c)],
           registry := map["a" := 0, "b" := 1, "c" := CAM], nextObj := 3)
  }

  /** Session 1 is closing, and the names are still before its cleanup. */
  function Cleaning(st: State, names: seq<Name>): State {
    st.(live := {}, closing := map[ALICE := Releasing(names)])
  }

  function Removed(): State {
    Cleaning(Three(None, Some(ALICE)).(registry := map["a" := 0, "c" := CAM]), ["b", "c"])
  }

  lemma ThreeAdded()
    ensures ApplyConnect(INIT) == One() && ApplyAdd(One(), "a", false, true) == AddedA()
    ensures ApplyAdd(AddedA(), "b", false, true) == AddedB()
    ensures ApplyAdd(AddedB(), "c", false, true) == Three(None, None)
  {
  }

  lemma ThreeLocked()
    ensures ApplyLock(Three(None, None), ALICE, ["a", "c"]) == Three(Some(ALICE), Some(ALICE))
  {
    var st := Three(None, None);
    assert Lockable(st, ALICE, "a") && Lockable(st, ALICE, "c");
    assert AcquireOne(st, ALICE, 0) == Three(Some(ALICE), None);
    assert AcquireOne(Three(Some(ALICE), None), ALICE, CAM) == Three(Some(ALICE), Some(ALICE));
    assert ["a", "c"][1..] == ["c"] && ["c"][1..] == [];
    assert Acquire(Three(Some(ALICE), None), ALICE, ["c"]) == Three(Some(ALICE), Some(ALICE));
  }

  lemma ThreeClosing()
    ensures ApplyStartClose(Three(Some(ALICE), Some(ALICE)), ALICE, ["a", "b", "c"])
            == Cleaning(Three(Some(ALICE), Some(ALICE)), ["a", "b", "c"])
  {
  }

  lemma ThreeRemoved()
    ensures ApplyRemove(Cleaning(Three(None, Some(ALICE)), ["b", "c"]), "b") == Removed()
  {
  }

  lemma ThreeReleased()
    ensures ApplyCloseNext(Cleaning(Three(Some(ALICE), Some(ALICE)), ["a", "b", "c"]), ALICE, true)
            == Cleaning(Three(None, Some(ALICE)), ["b", "c"])
  {
    var st := Cleaning(Three(Some(ALICE), Some(ALICE)), ["a", "b", "c"]);
    assert ReleaseOwned(st, "a", ALICE, true) == Cleaning(Three(None, Some(ALICE)), ["a", "b", "c"]);
    assert ["a", "b", "c"][1..] == ["b", "c"];
  }

  lemma AbortsThree(run: seq<Step>)
    ensures ABORTED <= run ==> At(run, 4) == Three(None, None)
  {
    hide At, Apply, One, AddedA, AddedB, Three, ApplyConnect, ApplyAdd;
    ThreeAdded();
    Performs(INIT, Connect);
    AtStep(run, 0);
    Performs(One(), AddInstrument("a", false, true));
    AtStep(run, 1);
    Performs(AddedA(), AddInstrument("b", false, true));
    AtStep(run, 2);
    Performs(AddedB(), AddInstrument("c", false, true));
    AtStep(run, 3);
  }

  lemma AbortsRemoved(run: seq<Step>)
    ensures ABORTED <= run ==> At(run, 8) == Removed()
  {
    hide At, Apply, Three, Cleaning, Removed, ApplyLock, ApplyStartClose, ApplyCloseNext, ApplyRemove;
    AbortsThree(run);
    ThreeLocked();
    ThreeClosing();
    ThreeReleased();
    ThreeRemoved();
    Performs(Three(None, None), LockInstruments(ALICE, ["a", "c"]));
    AtStep(run, 4);
    Performs(Three(Some(ALICE), Some(ALICE)), StartClose(ALICE, ["a", "b", "c"]));
    AtStep(run, 5);
    Performs(At(run, 6), CloseNext(ALICE, true));
    AtStep(run, 6);
    Performs(At(run, 7), RemoveInstrument("b"));
    AtStep(run, 7);
  }

  lemma RemovedAborts()
    ensures Aborts(Removed(), CloseNext(ALICE, true), ALICE) && HasOwner(Removed(), CAM, Some(ALICE))
  {
  }

  /**
   * Session 1 owns `a` and `c` and disconnects. While its cleanup publishes the release of `a`,
   * another session removes `b`; the cleanup ends there, and `c` belongs to the session that is
   * gone in every later state.
   */
  lemma RemovalStrandsInstrument(run: seq<Step>, k: int)
    requires ABORTED <= run && 9 <= k
    ensures AbortsAt(run, 8, ALICE) && HasOwner(At(run, k), CAM, Some(ALICE)) && ALICE !in At(run, k).live
  {
    hide At, Removed, Aborts;
    RemovedAborts();
    AbortsRemoved(run);
    AbortStrands(run, 8, k, CAM, ALICE);
  }
}
