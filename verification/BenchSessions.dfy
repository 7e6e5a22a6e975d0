/**
 * The end of a session over whole runs: what its cleanup leaves behind, and that nothing belongs
 * to it ever again.
 */
module BenchSessions {
  import opened Wrappers
  import opened Store
  import opened Bench
  import opened BenchFrames
  import opened BenchInvariant
  import opened BenchEvents
  import opened BenchSafety
  import opened BenchMeasurements
  import StoreHistory

  // ---------------------------------------------------------------- the stages of a cleanup

  /** How far the cleanup of `s` has come; none before it begins and after it ends. */
  function Stage(st: State, s: Session): Option<Closing> {
    if s in st.closing then Some(st.closing[s]) else None
  }

  function NamesBefore(st: State, s: Session): seq<Name> {
    if s in st.closing && st.closing[s].Releasing? then st.closing[s].names else []
  }

  /** The stage after a step, for a session that is no longer connected. */
  function NextStage(st: State, step: Step, s: Session): Option<Closing> {
    var names := NamesBefore(st, s);
    if step.CloseNext? && step.session == s && names != [] then
      Some(Releasing(if names[0] in st.registry then names[1..] else []))
    else if step == CloseKeys(s) && Stage(st, s) == Some(Releasing([])) then Some(Unsubscribing)
    else if step == FinishClose(s) && Stage(st, s) == Some(Unsubscribing) then None
    else Stage(st, s)
  }

  lemma CloseNextStage(st: State, step: Step, s: Session)
    requires step.CloseNext?
    ensures Stage(ApplyCloseNext(st, step.session, step.safe), s) == NextStage(st, step, s)
  {
    hide ReleaseOwned;
  }

  lemma StartCloseStage(st: State, step: Step, s: Session)
    requires step.StartClose? && s !in st.live
    ensures var b := ApplyStartClose(st, step.session, step.names);
            s !in b.live && Stage(b, s) == NextStage(st, step, s)
  {
    hide Listing, NamesBefore;
  }

  lemma LateStages(st: State, step: Step, s: Session)
    ensures step.CloseKeys? ==> Stage(ApplyCloseKeys(st, step.session), s) == NextStage(st, step, s)
    ensures step.FinishClose? ==> Stage(ApplyFinishClose(st, step.session), s) == NextStage(st, step, s)
  {
    hide ReleaseSpec, NamesBefore;
  }

  lemma ClosingStages(st: State, step: Step, s: Session)
    requires IsClosing(step) && s !in st.live
    ensures s !in ApplyClosing(st, step).live && Stage(ApplyClosing(st, step), s) == NextStage(st, step, s)
  {
    hide ApplyStartClose, ApplyCloseNext, ApplyCloseKeys, ApplyFinishClose, Stage, NextStage;
    LateStages(st, step, s);
    if step.StartClose? {
      StartCloseStage(st, step, s);
    } else if step.CloseNext? {
      CloseNextStage(st, step, s);
    }
  }

  lemma StageMoves(st: State, step: Step, s: Session)
    requires s !in st.live && s < st.nextSession
    ensures s !in Apply(st, step).live && s < Apply(st, step).nextSession
    ensures Stage(Apply(st, step), s) == NextStage(st, step, s)
  {
    hide Apply, ApplyClosing, ApplyKeyOperation, ApplySubscribe, ApplyUnsubscribe, NamesBefore;
    Frame(st, step);
    if IsClosing(step) {
      ClosingIs(st, step);
      ClosingStages(st, step, s);
    } else if step.Connect? {
      ClientIs(st, step);
    }
  }

  // ---------------------------------------------------------------- a session that has ended

  /** `s` was connected once and its cleanup loop is over. */
  ghost predicate Settled(st: State, s: Session) {
    s < st.nextSession && s !in st.live && NamesBefore(st, s) == []
  }

  /** The whole cleanup of `s` is over. */
  ghost predicate Gone(st: State, s: Session) {
    s < st.nextSession && s !in st.live && s !in st.closing
  }

  lemma SettledStep(st: State, step: Step, s: Session)
    ensures Settled(st, s) ==> Settled(Apply(st, step), s)
    ensures Gone(st, s) ==> Gone(Apply(st, step), s)
  {
    hide Apply;
    if s !in st.live && s < st.nextSession {
      StageMoves(st, step, s);
    }
  }

  lemma {:induction false} SettledForever(run: seq<Step>, i: int, j: int, s: Session)
    requires 0 <= i <= j
    ensures Settled(At(run, i), s) ==> Settled(At(run, j), s)
    ensures Gone(At(run, i), s) ==> Gone(At(run, j), s)
    decreases j - i
  {
    hide At, Apply, Settled, Gone;
    if i < j {
      SettledForever(run, i, j - 1, s);
      AtStep(run, j - 1);
      SettledStep(At(run, j - 1), StepAt(run, j - 1), s);
    }
  }

  /** Once its cleanup loop is over, a session neither takes nor releases anything. */
  lemma {:induction false} OwnershipFrozen(run: seq<Step>, i: int, j: int, o: ObjId, s: Session)
    requires 0 <= i <= j && Settled(At(run, i), s) && o in At(run, i).objs
    ensures o in At(run, j).objs && (HasOwner(At(run, j), o, Some(s)) <==> HasOwner(At(run, i), o, Some(s)))
    decreases j - i
  {
    hide At, Settled, ChangeAt, LocksAt, ReleasesAt, CompletesAt, ResetsAt;
    if i < j {
      OwnershipFrozen(run, i, j - 1, o, s);
      SettledForever(run, i, j - 1, s);
      EffectAt(run, j - 1, o);
      SettledActsNot(run, j - 1, o, s);
    }
  }

  lemma SettledActsNot(run: seq<Step>, x: int, o: ObjId, s: Session)
    requires Settled(At(run, x), s)
    ensures !LocksAt(run, x, o, s) && forall safe :: !ReleasesAt(run, x, o, s, safe)
  {
    hide At, OkObjects, OkRegistry, TablesOk, OkHealth, OkSessions, OkKeys, OkSubs, CommandOk, OwnedBy;
    ReachableInv(run, x);
    if At(run, x).command.Some? {
      CommandSession(At(run, x));
    }
  }

  // ---------------------------------------------------------------- the cleanup loop

  /** The loop of `s`, if it is under way, still has every instrument before it that `s` owns. */
  ghost predicate Covers(st: State, s: Session) {
    s < st.nextSession && s !in st.live && forall n :: OwnedBy(st, n, s) ==> n in NamesBefore(st, s)
  }

  /** The cleanup loop of `s` comes to a name that is no longer registered, and ends early. */
  predicate Aborts(st: State, step: Step, s: Session) {
    step.CloseNext? && step.session == s && NamesBefore(st, s) != [] && NamesBefore(st, s)[0] !in st.registry
  }

  ghost predicate AbortsAt(run: seq<Step>, x: int, s: Session) {
    0 <= x < |run| && Aborts(At(run, x), StepAt(run, x), s)
  }

  /** Session `s` is connected and starts to close, with the names of a listing. */
  ghost predicate ClosesAt(run: seq<Step>, i: int, s: Session, names: seq<Name>) {
    0 <= i < |run| && StepAt(run, i) == StartClose(s, names) && s in At(run, i).live && Listing(At(run, i), names)
  }

  /** Instrument `n` belongs to `s` in `a`, and the same instrument is still registered in `b`. */
  ghost predicate LeftBehind(a: State, b: State, n: Name, s: Session) {
    OwnedBy(a, n, s) && Names(b, n, a.registry[n])
  }

  /** No step gives `s` an instrument it did not own before. */
  lemma NothingGained(st: State, step: Step, n: Name, s: Session)
    requires Inv(st) && s !in st.live && OwnedBy(Apply(st, step), n, s)
    ensures LeftBehind(st, Apply(st, step), n, s)
  {
    hide Apply, ChangeBy, OkObjects, TablesOk, OkHealth, CommandOk, OkSessions, OkKeys, OkSubs;
    var o := Apply(st, step).registry[n];
    NameKept(st, step, n, o);
    if Names(st, n, o) {
      Effect(st, step, o);
      NoLockBy(st, step, o, s);
    } else {
      FreshUnowned(st, step, o);
    }
  }

  lemma NoLockBy(st: State, step: Step, o: ObjId, s: Session)
    requires s !in st.live
    ensures ChangeBy(st, step, o) != Acquired(s)
  {
    hide OwnedBy, ReleaseTarget, Named, Completes, Resets, Spoils;
  }

  lemma FreshUnowned(st: State, step: Step, o: ObjId)
    requires step.AddInstrument? && o == st.nextObj
    ensures HasOwner(Apply(st, step), o, None) || Apply(st, step) == st
  {
    hide Apply, ApplyRemove, ApplyLock, ApplyBeginUnlock, ApplyUnlockNext, ApplyUnlockRaises;
    OwnershipIs(st, step);
  }

  lemma CoversStep(st: State, step: Step, s: Session)
    requires Inv(st) && Covers(st, s) && !Aborts(st, step, s)
    ensures Covers(Apply(st, step), s)
  {
    hide Apply, Inv, OwnedBy;
    var b := Apply(st, step);
    StageMoves(st, step, s);
    forall n | OwnedBy(b, n, s) ensures n in NamesBefore(b, s) {
      NothingGained(st, step, n, s);
      if HasTurn(st, step, n, s) {
        TurnReleases(st, step, n, s);
      }
    }
  }

  /** The cleanup loop of `s` comes to `n`. */
  predicate HasTurn(st: State, step: Step, n: Name, s: Session) {
    step.CloseNext? && step.session == s && NamesBefore(st, s) != [] && NamesBefore(st, s)[0] == n
  }

  /** The instrument whose turn it is in the loop of `s` does not belong to `s` afterwards. */
  lemma TurnReleases(st: State, step: Step, n: Name, s: Session)
    requires Inv(st) && s !in st.live && HasTurn(st, step, n, s)
    ensures !OwnedBy(Apply(st, step), n, s)
  {
    hide Apply, Inv;
    if OwnedBy(Apply(st, step), n, s) {
      NothingGained(st, step, n, s);
      Effect(st, step, st.registry[n]);
      assert false;
    }
  }

  lemma {:induction false} CoversOn(run: seq<Step>, i: int, j: int, s: Session)
    requires 0 <= i <= j && Covers(At(run, i), s) && forall x :: i <= x < j ==> !AbortsAt(run, x, s)
    ensures Covers(At(run, j), s)
    decreases j - i
  {
    hide At, Apply, Inv, Covers, Aborts;
    if i < j {
      CoversOn(run, i, j - 1, s);
      assert !AbortsAt(run, j - 1, s);
      ReachableInv(run, j - 1);
      AtStep(run, j - 1);
      if j <= |run| {
        CoversStep(At(run, j - 1), StepAt(run, j - 1), s);
      }
    }
  }

  lemma StartCovers(st: State, s: Session, names: seq<Name>)
    requires OkSessions(st.live, st.closing, st.nextSession) && s in st.live && Listing(st, names)
    ensures var b := ApplyStartClose(st, s, names);
            Covers(b, s) && NamesBefore(b, s) == names && b.registry == st.registry
  {
    var b := ApplyStartClose(st, s, names);
    forall n | OwnedBy(b, n, s) ensures n in names {
      assert n in st.registry;
    }
  }

  lemma StartCoversAt(run: seq<Step>, i: int, s: Session, names: seq<Name>)
    requires ClosesAt(run, i, s, names)
    ensures Covers(At(run, i + 1), s) && NamesBefore(At(run, i + 1), s) == names
    ensures At(run, i + 1).registry == At(run, i).registry && Listing(At(run, i), names)
  {
    hide At, Apply, Covers, Listing, OkObjects, OkRegistry, TablesOk, OkHealth, CommandOk, OkKeys, OkSubs,
      ApplyStartClose, ApplyCloseNext, ApplyCloseKeys, ApplyFinishClose;
    ReachableInv(run, i);
    AtStep(run, i);
    ClosingIs(At(run, i), StepAt(run, i));
    StartCovers(At(run, i), s, names);
  }

  /** Nothing belongs to `s`: it is not connected and has no instrument, no key and no subscription. */
  ghost predicate Forgotten(st: State, s: Session) {
    && s !in st.live && s !in st.closing
    && (forall n :: !OwnedBy(st, n, s))
    && (forall key :: key in st.db.owners ==> st.db.owners[key] != s)
    && (forall sub :: sub in st.subs ==> sub.0 != s)
  }

  /**
   * Disconnect finality. Session `s` starts to close at `i`, its cleanup is over at `j`, and no
   * name disappeared under its loop: from then on, in every later state, it is not connected and
   * no registered instrument, no key and no subscription belongs to it.
   */
  lemma DisconnectFinal(run: seq<Step>, i: int, j: int, k: int, s: Session, names: seq<Name>)
    requires i < j <= k && ClosesAt(run, i, s, names)
    requires forall x :: i < x < j ==> !AbortsAt(run, x, s)
    requires s !in At(run, j).closing
    ensures Forgotten(At(run, k), s)
  {
    hide At, Apply, AbortsAt, ClosesAt, Inv, OwnedBy;
    assert 0 <= i by {
      ClosesIn(run, i, s, names);
    }
    StartCoversAt(run, i, s, names);
    CoversOn(run, i + 1, j, s);
    SettledForever(run, j, k, s);
    forall n ensures !OwnedBy(At(run, k), n, s) {
      if OwnedBy(At(run, k), n, s) {
        OwnedSince(run, j, k, n, s);
      }
    }
    ReachableInv(run, k);
    GoneHolds(At(run, k), s);
  }

  /** Where a session that was connected began to close. */
  lemma {:induction false} ClosingOf(run: seq<Step>, i: int, j: int, s: Session) returns (x: int, names: seq<Name>)
    requires 0 <= i <= j && s in At(run, i).live && s !in At(run, j).live
    ensures i <= x < j && ClosesAt(run, x, s, names)
    decreases j - i
  {
    hide At, Apply, Listing;
    if s !in At(run, j - 1).live {
      x, names := ClosingOf(run, i, j - 1, s);
    } else {
      x := j - 1;
      AtStep(run, x);
      names := LeavesByClosing(At(run, x), StepAt(run, x), s);
    }
  }

  lemma LeavesByClosing(st: State, step: Step, s: Session) returns (names: seq<Name>)
    requires s in st.live && s !in Apply(st, step).live
    ensures step == StartClose(s, names) && Listing(st, names)
  {
    hide Apply, Listing, ApplyKeyOperation, ApplySubscribe, ApplyUnsubscribe, ApplyDrop, ApplyCloseNext, ApplyCloseKeys,
      ApplyFinishClose;
    Frame(st, step);
    names := if step.StartClose? then step.names else [];
    if step.Connect? {
      ClientIs(st, step);
    } else if step.StartClose? {
      ClosingIs(st, step);
    }
  }

  /**
   * The same for every session that was connected once and is gone: unless its cleanup aborted, nothing
   * belongs to it in any later state.
   */
  lemma GoneIsForgotten(run: seq<Step>, i: int, j: int, k: int, s: Session)
    requires 0 <= i <= j <= k && s in At(run, i).live && s !in At(run, j).live && s !in At(run, j).closing
    requires forall x :: i <= x < j ==> !AbortsAt(run, x, s)
    ensures Forgotten(At(run, k), s)
  {
    hide At, Apply, AbortsAt, ClosesAt, Forgotten;
    var x, names := ClosingOf(run, i, j, s);
    DisconnectFinal(run, x, j, k, s, names);
  }

  lemma ClosesIn(run: seq<Step>, i: int, s: Session, names: seq<Name>)
    requires ClosesAt(run, i, s, names)
    ensures 0 <= i
  {
    hide At, Listing;
  }

  /** What is known of the keys and subscriptions of a session that is gone. */
  lemma GoneHolds(st: State, s: Session)
    requires Inv(st) && Gone(st, s)
    ensures forall key :: key in st.db.owners ==> st.db.owners[key] != s
    ensures forall sub :: sub in st.subs ==> sub.0 != s
  {
    hide OkObjects, OkRegistry, TablesOk, OkHealth, CommandOk, OkSessions, StoreHistory.Consistent;
  }

  // ---------------------------------------------------------------- an aborted cleanup

  /** Whatever a session owns after its cleanup loop it has owned since. */
  lemma {:induction false} OwnedSince(run: seq<Step>, j: int, k: int, n: Name, s: Session)
    requires 0 <= j <= k && Settled(At(run, j), s) && OwnedBy(At(run, k), n, s)
    ensures LeftBehind(At(run, j), At(run, k), n, s)
    decreases k - j
  {
    hide At, Apply, Inv;
    if j < k {
      SettledForever(run, j, k - 1, s);
      ReachableInv(run, k - 1);
      AtStep(run, k - 1);
      if k <= |run| {
        NothingGained(At(run, k - 1), StepAt(run, k - 1), n, s);
      }
      OwnedSince(run, j, k - 1, n, s);
    }
  }

  lemma AbortSettles(run: seq<Step>, x: int, s: Session)
    requires AbortsAt(run, x, s)
    ensures 0 <= x && Settled(At(run, x + 1), s)
    ensures At(run, x + 1).objs == At(run, x).objs && At(run, x + 1).registry == At(run, x).registry
  {
    hide At, Apply, OkObjects, OkRegistry, TablesOk, OkHealth, CommandOk, OkKeys, OkSubs, ReleaseOwned, ApplyStartClose,
      ApplyCloseKeys, ApplyFinishClose;
    ReachableInv(run, x);
    AtStep(run, x);
    ClosingIs(At(run, x), StepAt(run, x));
  }

  /** An instrument its owner still had when the cleanup aborted keeps that owner for good. */
  lemma AbortStrands(run: seq<Step>, x: int, k: int, o: ObjId, s: Session)
    requires x < k && AbortsAt(run, x, s) && o in At(run, x).objs
    ensures o in At(run, k).objs && (HasOwner(At(run, k), o, Some(s)) <==> HasOwner(At(run, x), o, Some(s)))
    ensures s !in At(run, k).live
  {
    hide At, AbortsAt;
    AbortSettles(run, x, s);
    OwnershipFrozen(run, x + 1, k, o, s);
    SettledForever(run, x + 1, k, s);
  }

  /**
   * After the cleanup of `s` an instrument still belongs to it if and only if the cleanup aborted
   * while `s` owned one that is still registered.
   */
  lemma CleanupIncomplete(run: seq<Step>, i: int, j: int, s: Session, names: seq<Name>)
    requires i < j && ClosesAt(run, i, s, names) && s !in At(run, j).closing
    ensures (exists n :: OwnedBy(At(run, j), n, s))
            <==> (exists x, n :: i < x < j && AbortsAt(run, x, s) && LeftBehind(At(run, x), At(run, j), n, s))
  {
    hide At, AbortsAt, OwnedBy, ClosesAt, LeftBehind;
    if n :| OwnedBy(At(run, j), n, s) {
      var x := AbortBehind(run, i, j, n, s, names);
    }
    if x, n :| i < x < j && AbortsAt(run, x, s) && LeftBehind(At(run, x), At(run, j), n, s) {
      LeftBehindStays(run, x, j, n, s);
    }
  }

  /** An instrument that still belongs to a session that is gone was left behind by an abort. */
  lemma AbortBehind(run: seq<Step>, i: int, j: int, n: Name, s: Session, names: seq<Name>) returns (x: int)
    requires i < j && ClosesAt(run, i, s, names) && s !in At(run, j).closing && OwnedBy(At(run, j), n, s)
    ensures i < x < j && AbortsAt(run, x, s) && LeftBehind(At(run, x), At(run, j), n, s)
  {
    hide At, AbortsAt, ClosesAt;
    if forall x :: i < x < j ==> !AbortsAt(run, x, s) {
      DisconnectFinal(run, i, j, j, s, names);
      assert false;
    }
    x :| i < x < j && AbortsAt(run, x, s);
    AbortSettles(run, x, s);
    OwnedSince(run, x + 1, j, n, s);
  }

  lemma LeftBehindStays(run: seq<Step>, x: int, j: int, n: Name, s: Session)
    requires x < j && AbortsAt(run, x, s) && LeftBehind(At(run, x), At(run, j), n, s)
    ensures OwnedBy(At(run, j), n, s)
  {
    hide At, AbortsAt;
    AbortStrands(run, x, j, At(run, x).registry[n], s);
  }

  /** The names still before the cleanup loop of `s` are all registered. */
  ghost predicate AllRegistered(st: State, s: Session) {
    s !in st.live && s < st.nextSession && forall n :: n in NamesBefore(st, s) ==> n in st.registry
  }

  lemma AllRegisteredStep(st: State, step: Step, s: Session)
    requires AllRegistered(st, s) && forall n :: !Removes(st, step, n)
    ensures AllRegistered(Apply(st, step), s) && !Aborts(st, step, s)
  {
    hide Apply, Removes;
    forall n | n in st.registry ensures n in Apply(st, step).registry {
      NameKept(st, step, n, st.registry[n]);
    }
    StageMoves(st, step, s);
  }

  lemma {:induction false} AllRegisteredOn(run: seq<Step>, i: int, j: int, s: Session)
    requires 0 <= i <= j && AllRegistered(At(run, i), s) && forall x, n :: i <= x < j ==> !RemovesAt(run, x, n)
    ensures AllRegistered(At(run, j), s) && forall x :: i <= x < j ==> !AbortsAt(run, x, s)
    decreases j - i
  {
    hide At, Apply, AllRegistered, Aborts, Removes;
    if i < j {
      var x := j - 1;
      AllRegisteredOn(run, i, x, s);
      AtStep(run, x);
      if x < |run| {
        forall n ensures !Removes(At(run, x), StepAt(run, x), n) {
          assert !RemovesAt(run, x, n);
        }
        AllRegisteredStep(At(run, x), StepAt(run, x), s);
      }
    }
  }

  /** Without a removal between its first and its last step, a cleanup does not abort. */
  lemma NoRemovalNoAbort(run: seq<Step>, i: int, j: int, s: Session, names: seq<Name>)
    requires i < j && ClosesAt(run, i, s, names) && forall x, n :: i < x < j ==> !RemovesAt(run, x, n)
    ensures forall x :: i < x < j ==> !AbortsAt(run, x, s)
  {
    hide At, AbortsAt, RemovesAt, ClosesAt, OwnedBy;
    ClosesIn(run, i, s, names);
    StartCoversAt(run, i, s, names);
    AllRegisteredOn(run, i + 1, j, s);
  }
}
