/**
 * The fields each kind of step may change; all others it leaves as they are. The functions of `Bench`
 * promise this one by one, here it is put together.
 */
module BenchFrames {
  import opened Bench

  /** Steps that only start, move on or end a command. */
  predicate IsCommandStep(step: Step) {
    step.BeginUnlock? || step.UnlockRaises? || step.BeginInit? || step.BeginAlign? || step.AlignNext?
    || step.BeginUse? || step.UseDone? || step.BeginPing?
  }

  // ---------------------------------------------------------------- which steps may change a field

  predicate ChangesObjs(step: Step) {
    step.AddInstrument? || step.LockInstruments? || step.UnlockNext? || step.InitReturn? || step.AlignReturn?
    || step.Reset? || step.UseReturn? || step.PingReturn? || step.GuardReturn? || step.GuardTrip?
    || step.HealthReturn? || step.CloseNext?
  }

  predicate ChangesRegistry(step: Step) {
    step.AddInstrument? || step.RemoveInstrument?
  }

  predicate ChangesWatches(step: Step) {
    step.RemoveInstrument? || step.UnlockNext? || step.Watch? || step.Unwatch? || step.UnwatchInstrument?
    || step.UnwatchAll? || step.CloseNext?
  }

  predicate ChangesGuards(step: Step) {
    ChangesWatches(step) || step.GuardTick? || step.GuardReturn? || step.GuardTrip? || step.GuardPublish?
  }

  predicate ChangesHealth(step: Step) {
    step.AddInstrument? || step.RemoveInstrument? || step.HealthTick? || step.HealthReturn?
    || step.HealthPublish?
  }

  predicate ChangesMeas(step: Step) {
    step.UnlockNext? || step.BeginRead? || step.UseStart? || step.UseReturn? || step.Unwatch?
    || step.UnwatchInstrument? || step.UnwatchAll? || step.GuardReturn? || step.GuardTrip? || step.CloseNext?
  }

  predicate ChangesSubs(step: Step) {
    step.Subscribe? || step.Unsubscribe? || step.DropSubscriber? || step.FinishClose?
  }

  predicate ChangesCommand(step: Step) {
    IsCommandStep(step) || step.UnlockNext? || step.InitReturn? || step.AlignReturn? || step.PingReturn?
    || step.BeginRead? || step.UseStart? || step.UseReturn? || step.StartClose?
  }

  predicate ChangesClosing(step: Step) {
    step.StartClose? || step.CloseNext? || step.CloseKeys? || step.FinishClose?
  }

  /** `b` differs from `a` at most in the fields that `step` may change. */
  ghost predicate Framed(a: State, step: Step, b: State) {
    b == a.(
      objs := if ChangesObjs(step) then b.objs else a.objs,
      registry := if ChangesRegistry(step) then b.registry else a.registry,
      watches := if ChangesWatches(step) then b.watches else a.watches,
      guards := if ChangesGuards(step) then b.guards else a.guards,
      health := if ChangesHealth(step) then b.health else a.health,
      meas := if ChangesMeas(step) then b.meas else a.meas,
      db := if step.KeyOperation? || step.CloseKeys? then b.db else a.db,
      subs := if ChangesSubs(step) then b.subs else a.subs,
      command := if ChangesCommand(step) then b.command else a.command,
      live := if step.Connect? || step.StartClose? then b.live else a.live,
      closing := if ChangesClosing(step) then b.closing else a.closing,
      nextObj := if step.AddInstrument? then b.nextObj else a.nextObj,
      nextTask := if step.Watch? then b.nextTask else a.nextTask,
      nextSession := if step.Connect? then b.nextSession else a.nextSession)
  }

  // ---------------------------------------------------------------- the groups of steps

  lemma LifecycleIs(st: State, step: Step)
    requires IsLifecycle(step)
    ensures Apply(st, step) == ApplyLifecycle(st, step)
  {
    hide ApplyLifecycle, ApplyUse, ApplyBackground, ApplyOwnership, ApplyWatching, ApplyClosing, ApplyClient;
  }

  lemma UseIs(st: State, step: Step)
    requires IsUse(step)
    ensures Apply(st, step) == ApplyUse(st, step)
  {
    hide ApplyLifecycle, ApplyUse, ApplyBackground, ApplyOwnership, ApplyWatching, ApplyClosing, ApplyClient;
  }

  lemma BackgroundIs(st: State, step: Step)
    requires IsBackground(step)
    ensures Apply(st, step) == ApplyBackground(st, step)
  {
    hide ApplyLifecycle, ApplyUse, ApplyBackground, ApplyOwnership, ApplyWatching, ApplyClosing, ApplyClient;
  }

  lemma OwnershipIs(st: State, step: Step)
    requires IsOwnership(step)
    ensures Apply(st, step) == ApplyOwnership(st, step)
  {
    hide ApplyLifecycle, ApplyUse, ApplyBackground, ApplyOwnership, ApplyWatching, ApplyClosing, ApplyClient;
  }

  lemma WatchingIs(st: State, step: Step)
    requires IsWatching(step)
    ensures Apply(st, step) == ApplyWatching(st, step)
  {
    hide ApplyLifecycle, ApplyUse, ApplyBackground, ApplyOwnership, ApplyWatching, ApplyClosing, ApplyClient;
  }

  lemma ClosingIs(st: State, step: Step)
    requires IsClosing(step)
    ensures Apply(st, step) == ApplyClosing(st, step)
  {
    hide ApplyLifecycle, ApplyUse, ApplyBackground, ApplyOwnership, ApplyWatching, ApplyClosing, ApplyClient;
  }

  lemma ClientIs(st: State, step: Step)
    requires IsClient(step)
    ensures Apply(st, step) == ApplyClient(st, step)
  {
    hide ApplyLifecycle, ApplyUse, ApplyBackground, ApplyOwnership, ApplyWatching, ApplyClosing, ApplyClient;
  }

  /** Single steps: what they are without the case distinction. */
  lemma Performs(st: State, step: Step)
    ensures match step
            case Connect => Apply(st, step) == ApplyConnect(st)
            case AddInstrument(n, monitored, connects) => Apply(st, step) == ApplyAdd(st, n, monitored, connects)
            case RemoveInstrument(n) => Apply(st, step) == ApplyRemove(st, n)
            case LockInstruments(s, names) => Apply(st, step) == ApplyLock(st, s, names)
            case BeginUnlock(s, names, all) => Apply(st, step) == ApplyBeginUnlock(st, s, names, all)
            case UnlockNext(safe) => Apply(st, step) == ApplyUnlockNext(st, safe)
            case StartClose(s, names) => Apply(st, step) == ApplyStartClose(st, s, names)
            case CloseNext(s, safe) => Apply(st, step) == ApplyCloseNext(st, s, safe)
            case Subscribe(s, channel) => Apply(st, step) == ApplySubscribe(st, s, channel)
            case Unsubscribe(s, channel) => Apply(st, step) == ApplyUnsubscribe(st, s, channel)
            case DropSubscriber(s, channel) => Apply(st, step) == ApplyDrop(st, s, channel)
            case _ => true
  {
    hide Apply, ApplyAdd, ApplyRemove, ApplyLock, ApplyBeginUnlock, ApplyUnlockNext, ApplyUnlockRaises, ApplyStartClose,
      ApplyCloseNext, ApplyCloseKeys, ApplyFinishClose, ApplyConnect, ApplyKeyOperation, ApplySubscribe,
      ApplyUnsubscribe, ApplyDrop;
    if IsOwnership(step) {
      OwnershipIs(st, step);
    } else if IsClosing(step) {
      ClosingIs(st, step);
    } else if IsClient(step) {
      ClientIs(st, step);
    }
  }

  lemma PerformsCall(st: State, step: Step)
    ensures match step
            case BeginInit(s, n, configured) => Apply(st, step) == ApplyBeginInit(st, s, n, configured)
            case InitReturn(outcome, found) => Apply(st, step) == ApplyInitReturn(st, outcome, found)
            case Reset(s, n, connects) => Apply(st, step) == ApplyReset(st, s, n, connects)
            case BeginRead(s, args, marked) => Apply(st, step) == ApplyBeginRead(st, s, args, marked)
            case UseStart(index) => Apply(st, step) == ApplyUseStart(st, index)
            case UseReturn(index, outcome) => Apply(st, step) == ApplyUseReturn(st, index, outcome)
            case UseDone => Apply(st, step) == ApplyUseDone(st)
            case Watch(s, n, r, low, high) => Apply(st, step) == ApplyWatch(st, s, n, r, low, high)
            case _ => true
  {
    hide Apply, ApplyBeginInit, ApplyInitReturn, ApplyBeginAlign, ApplyAlignNext, ApplyAlignReturn, ApplyReset,
      ApplyBeginPing, ApplyPingReturn, ApplyBeginUse, ApplyBeginRead, ApplyUseStart, ApplyUseReturn, ApplyUseDone,
      ApplyWatch, ApplyUnwatch, ApplyUnwatchInstrument, ApplyUnwatchAll;
    if IsLifecycle(step) {
      LifecycleIs(st, step);
    } else if IsUse(step) {
      UseIs(st, step);
    } else if IsWatching(step) {
      WatchingIs(st, step);
    }
  }

  lemma PerformsTask(st: State, step: Step)
    ensures match step
            case GuardTick(t) => Apply(st, step) == ApplyGuardTick(st, t)
            case GuardReturn(t, outcome, number) => Apply(st, step) == ApplyGuardReturn(st, t, outcome, number)
            case GuardTrip(t) => Apply(st, step) == ApplyGuardTrip(st, t)
            case GuardPublish(t) => Apply(st, step) == ApplyGuardPublish(st, t)
            case HealthTick(n) => Apply(st, step) == ApplyHealthTick(st, n)
            case HealthReturn(n, outcome) => Apply(st, step) == ApplyHealthReturn(st, n, outcome)
            case _ => true
  {
    hide Apply, ApplyGuardTick, ApplyGuardReturn, ApplyGuardTrip, ApplyGuardPublish, ApplyHealthTick, ApplyHealthReturn,
      ApplyHealthPublish;
    if IsBackground(step) {
      BackgroundIs(st, step);
    }
  }

  // ---------------------------------------------------------------- every step

  lemma LifecycleFrame(st: State, step: Step)
    ensures Framed(st, step, ApplyLifecycle(st, step))
  {
    hide ApplyBeginInit, ApplyInitReturn, ApplyBeginAlign, ApplyAlignNext, ApplyAlignReturn, ApplyReset, ApplyBeginPing,
      ApplyPingReturn;
  }

  lemma UseFrame(st: State, step: Step)
    ensures Framed(st, step, ApplyUse(st, step))
  {
    hide ApplyBeginUse, ApplyBeginRead, ApplyUseStart, ApplyUseReturn, ApplyUseDone;
  }

  lemma BackgroundFrame(st: State, step: Step)
    ensures Framed(st, step, ApplyBackground(st, step))
  {
    hide ApplyGuardTick, ApplyGuardReturn, ApplyGuardTrip, ApplyGuardPublish, ApplyHealthTick, ApplyHealthReturn,
      ApplyHealthPublish;
  }

  lemma OwnershipFrame(st: State, step: Step)
    ensures Framed(st, step, ApplyOwnership(st, step))
  {
    hide ApplyAdd, ApplyRemove, ApplyLock, ApplyBeginUnlock, ApplyUnlockNext, ApplyUnlockRaises;
  }

  lemma WatchingFrame(st: State, step: Step)
    ensures Framed(st, step, ApplyWatching(st, step))
  {
    hide ApplyWatch, ApplyUnwatch, ApplyUnwatchInstrument, ApplyUnwatchAll;
  }

  lemma ClosingFrame(st: State, step: Step)
    ensures Framed(st, step, ApplyClosing(st, step))
  {
    hide ApplyStartClose, ApplyCloseNext, ApplyCloseKeys, ApplyFinishClose;
  }

  lemma ClientFrame(st: State, step: Step)
    ensures Framed(st, step, ApplyClient(st, step))
  {
    hide ApplyConnect, ApplyKeyOperation, ApplySubscribe, ApplyUnsubscribe, ApplyDrop;
  }

  /** Every step changes its own fields only. */
  lemma Frame(st: State, step: Step)
    ensures Framed(st, step, Apply(st, step))
  {
    hide ApplyLifecycle, ApplyUse, ApplyBackground, ApplyOwnership, ApplyWatching, ApplyClosing, ApplyClient, Framed;
    if IsLifecycle(step) {
      LifecycleFrame(st, step);
    } else if IsUse(step) {
      UseFrame(st, step);
    } else if IsBackground(step) {
      BackgroundFrame(st, step);
    } else if IsOwnership(step) {
      OwnershipFrame(st, step);
    } else if IsWatching(step) {
      WatchingFrame(st, step);
    } else if IsClosing(step) {
      ClosingFrame(st, step);
    } else {
      ClientFrame(st, step);
    }
  }
}
