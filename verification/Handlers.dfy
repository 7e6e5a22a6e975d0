/**
 * Command handlers and the cleanup of a session as code that works on the shared objects
 * (testcore/commands.py, testcore/server.py), run without interruption, and that each is one of
 * the interleavings of `Bench`.
 */
module Handlers {
  import opened Wrappers
  import opened Store
  import opened Bench
  import opened BenchFrames
  import Events
  import opened Text
  import Registry
  import Watching

  // ---------------------------------------------------------------- IUNLOCK and the cleanup loop

  /** IUNLOCK of a list: it ends at the first name that `s` does not own. `safe` tells how each safe_state ends. */
  function UnlockEach(st: State, s: Session, names: seq<Name>, safe: seq<bool>): State
    decreases |names|
  {
    if names == [] || safe == [] then st
    else if OwnedBy(st, names[0], s) then UnlockEach(Release(st, names[0], safe[0]), s, names[1..], safe[1..])
    else StopGuards(st, names[0])
  }

  /** What the client is told in the end. */
  function UnlockEachReply(st: State, s: Session, names: seq<Name>, safe: seq<bool>): Registry.Reply
    decreases |names|
  {
    if names == [] || safe == [] then Registry.Done
    else if OwnedBy(st, names[0], s) then UnlockEachReply(Release(st, names[0], safe[0]), s, names[1..], safe[1..])
    else Registry.UnlockReply(st, s, names[0])
  }

  /** The cleanup loop: what `s` owns is released, name by name. */
  function CloseEach(st: State, s: Session, names: seq<Name>, safe: seq<bool>): State
    decreases |names|
  {
    if names == [] || safe == [] || names[0] !in st.registry then st
    else CloseEach(ReleaseOwned(st, names[0], s, safe[0]), s, names[1..], safe[1..])
  }

  lemma ReleaseLeaves(st: State, n: Name, s: Session, safe: bool, m: Name)
    ensures OwnedBy(ReleaseOwned(st, n, s, safe), m, s) ==> OwnedBy(st, m, s) && m != n
    ensures ReleaseOwned(st, n, s, safe).registry == st.registry
  {
    hide InvalidateSpec, TasksAt;
  }

  /** The loop over a complete listing leaves nothing to the session. */
  lemma {:induction false} AllReleased(st: State, s: Session, names: seq<Name>, safe: seq<bool>)
    requires |safe| == |names| && (forall n :: n in names ==> n in st.registry)
    requires forall n :: OwnedBy(st, n, s) ==> n in names
    ensures forall n :: !OwnedBy(CloseEach(st, s, names, safe), n, s)
    decreases |names|
  {
    hide ReleaseOwned, OwnedBy;
    if names != [] {
      var next := ReleaseOwned(st, names[0], s, safe[0]);
      ReleaseLeaves(st, names[0], s, safe[0], names[0]);
      forall n | OwnedBy(next, n, s) ensures n in names[1..] {
        ReleaseLeaves(st, names[0], s, safe[0], n);
      }
      AllReleased(next, s, names[1..], safe[1..]);
    }
  }

  /** The reply for the name at `i` when all names before it were released. */
  function ReplyAt(st: State, s: Session, names: seq<Name>, i: nat): Registry.Reply
    requires i < |names|
  {
    if names[i] in names[..i] then Registry.NotLocked else Registry.UnlockReply(st, s, names[i])
  }

  /** No two names stand for one instrument. */
  ghost predicate Distinct(registry: map<Name, ObjId>) {
    forall m, n :: m in registry && n in registry && registry[m] == registry[n] ==> m == n
  }

  lemma ReleaseReplies(st: State, n: Name, s: Session, safe: bool, m: Name)
    requires Distinct(st.registry) && OwnedBy(st, n, s)
    ensures Release(st, n, safe).registry == st.registry
    ensures Registry.UnlockReply(Release(st, n, safe), s, m) ==
              if m == n then Registry.NotLocked else Registry.UnlockReply(st, s, m)
    ensures OwnedBy(st, m, s) <==> Registry.UnlockReply(st, s, m) == Registry.Done
  {
    hide InvalidateSpec, TasksAt;
  }

  /**
   * The reply to IUNLOCK of a list is the one of the first name that is refused: a name that `s` does not
   * own, with the reason, or one that comes a second time, which is no longer locked. Without one all is done.
   */
  lemma {:induction false} UnlockReplyIs(st: State, s: Session, names: seq<Name>, safe: seq<bool>)
    requires Distinct(st.registry) && |safe| == |names|
    ensures UnlockEachReply(st, s, names, safe) == Registry.Done <==>
              forall i :: 0 <= i < |names| ==> ReplyAt(st, s, names, i) == Registry.Done
    ensures forall i :: 0 <= i < |names| && ReplyAt(st, s, names, i) != Registry.Done
                        && (forall j :: 0 <= j < i ==> ReplyAt(st, s, names, j) == Registry.Done)
                        ==> UnlockEachReply(st, s, names, safe) == ReplyAt(st, s, names, i)
    decreases |names|
  {
    hide Release, OwnedBy, Registry.UnlockReply;
    if names != [] {
      var n, rest := names[0], names[1..];
      assert ReplyAt(st, s, names, 0) == Registry.UnlockReply(st, s, n);
      ReplyIsOwned(st, s, n);
      if OwnedBy(st, n, s) {
        var next := Release(st, n, safe[0]);
        ReleaseReplies(st, n, s, safe[0], n);
        UnlockReplyIs(next, s, rest, safe[1..]);
        forall i | 0 <= i < |rest| ensures ReplyAt(st, s, names, i + 1) == ReplyAt(next, s, rest, i) {
          ReleaseReplies(st, n, s, safe[0], rest[i]);
          assert names[..i + 1] == [n] + rest[..i];
        }
        forall i | 0 < i < |names| ensures ReplyAt(st, s, names, i) == ReplyAt(next, s, rest, i - 1) {
          assert ReplyAt(st, s, names, (i - 1) + 1) == ReplyAt(next, s, rest, i - 1);
        }
        assert forall i :: 0 <= i < |rest| ==> ReplyAt(st, s, names, i + 1) == ReplyAt(next, s, rest, i);
      }
    }
  }

  // ---------------------------------------------------------------- handlers as interleavings

  /** The state after a list of steps. */
  function RunFrom(st: State, steps: seq<Step>): State
    decreases |steps|
  {
    if steps == [] then st else RunFrom(Apply(st, steps[0]), steps[1..])
  }

  function UnlockSteps(safe: seq<bool>): seq<Step> {
    if safe == [] then [UnlockNext(true)] else [UnlockNext(safe[0])] + UnlockSteps(safe[1..])
  }

  function CloseSteps(s: Session, safe: seq<bool>): seq<Step> {
    if safe == [] then [] else [CloseNext(s, safe[0])] + CloseSteps(s, safe[1..])
  }

  lemma RunCons(st: State, step: Step, rest: seq<Step>)
    ensures RunFrom(st, [step] + rest) == RunFrom(Apply(st, step), rest)
  {
    hide Apply;
    assert ([step] + rest)[1..] == rest;
  }

  lemma FirstUnlock(st: State, first: bool, rest: seq<bool>)
    ensures RunFrom(st, UnlockSteps([])) == ApplyUnlockNext(st, true)
    ensures RunFrom(st, UnlockSteps([first] + rest)) == RunFrom(ApplyUnlockNext(st, first), UnlockSteps(rest))
  {
    hide Apply, ApplyUnlockNext, ApplyCloseNext;
    Performs(st, UnlockNext(true));
    RunCons(st, UnlockNext(true), []);
    assert [UnlockNext(true)] + [] == UnlockSteps([]);
    Performs(st, UnlockNext(first));
    RunCons(st, UnlockNext(first), UnlockSteps(rest));
    assert ([first] + rest)[1..] == rest;
  }

  lemma FirstClose(st: State, s: Session, first: bool, rest: seq<bool>)
    ensures RunFrom(st, CloseSteps(s, [])) == st
    ensures RunFrom(st, CloseSteps(s, [first] + rest)) == RunFrom(ApplyCloseNext(st, s, first), CloseSteps(s, rest))
  {
    hide Apply, ApplyUnlockNext, ApplyCloseNext;
    Performs(st, CloseNext(s, first));
    RunCons(st, CloseNext(s, first), CloseSteps(s, rest));
    assert ([first] + rest)[1..] == rest;
  }

  /** The command in flight and the cleanups play no part in a release. */
  lemma ReleaseApart(st: State, n: Name, s: Session, safe: bool, command: Option<Command>,
          closing: map<Session, Closing>)
    ensures var a := st.(command := command, closing := closing);
            && (OwnedBy(a, n, s) <==> OwnedBy(st, n, s))
            && Release(a, n, safe) == Release(st, n, safe).(command := command, closing := closing)
            && StopGuards(a, n) == StopGuards(st, n).(command := command, closing := closing)
    ensures OwnedBy(st, n, s) ==> n in st.registry
  {
    hide InvalidateSpec, TasksAt;
  }

  lemma UnlockStepIs(st: State, s: Session, names: seq<Name>, safe: bool)
    ensures ApplyUnlockNext(st.(command := Some(Unlocking(s, names, false))), safe) ==
              if names == [] then st.(command := None)
              else if OwnedBy(st, names[0], s) then
                Release(st, names[0], safe).(command := Some(Unlocking(s, names[1..], false)))
              else StopGuards(st, names[0]).(command := None)
  {
    hide Release, StopGuards, OwnedBy;
    if names != [] {
      ReleaseApart(st, names[0], s, safe, Some(Unlocking(s, names, false)), st.closing);
    }
  }

  /** Without a command in flight another `UnlockNext` does nothing. */
  lemma {:induction false} NoMoreUnlocks(st: State, safe: seq<bool>)
    ensures st.command.None? ==> RunFrom(st, UnlockSteps(safe)) == st
    decreases |safe|
  {
    hide Apply, RunFrom;
    if safe == [] {
      FirstUnlock(st, true, []);
    } else {
      assert safe == [safe[0]] + safe[1..];
      FirstUnlock(st, safe[0], safe[1..]);
      NoMoreUnlocks(st, safe[1..]);
    }
  }

  /** IUNLOCK run without interruption is a run of the step system. */
  lemma {:induction false} UnlockEachIsRun(st: State, s: Session, names: seq<Name>, safe: seq<bool>)
    requires |safe| == |names| && st.command.None?
    ensures RunFrom(st.(command := Some(Unlocking(s, names, false))), UnlockSteps(safe))
            == UnlockEach(st, s, names, safe)
    decreases |names|
  {
    hide Apply, RunFrom, ApplyUnlockNext, Release, StopGuards, OwnedBy;
    var a := st.(command := Some(Unlocking(s, names, false)));
    if names == [] {
      FirstUnlock(a, true, []);
      UnlockStepIs(st, s, names, true);
    } else {
      assert safe == [safe[0]] + safe[1..];
      FirstUnlock(a, safe[0], safe[1..]);
      UnlockStepIs(st, s, names, safe[0]);
      if OwnedBy(st, names[0], s) {
        UnlockEachIsRun(Release(st, names[0], safe[0]), s, names[1..], safe[1..]);
      } else {
        NoMoreUnlocks(StopGuards(st, names[0]), safe[1..]);
      }
    }
  }

  lemma CloseStepIs(st: State, s: Session, names: seq<Name>, safe: bool)
    ensures var a := st.(closing := st.closing[s := Releasing(names)]);
            ApplyCloseNext(a, s, safe) ==
              if names == [] then a
              else if names[0] !in st.registry then st.(closing := st.closing[s := Releasing([])])
              else ReleaseOwned(st, names[0], s, safe).(closing := st.closing[s := Releasing(names[1..])])
  {
    hide Release, OwnedBy;
    if names != [] {
      var a := st.(closing := st.closing[s := Releasing(names)]);
      ReleaseApart(st, names[0], s, safe, st.command, a.closing);
      assert a.closing[s := Releasing([])] == st.closing[s := Releasing([])];
      assert a.closing[s := Releasing(names[1..])] == st.closing[s := Releasing(names[1..])];
    }
  }

  lemma {:induction false} NoMoreCloses(st: State, s: Session, safe: seq<bool>)
    ensures var a := st.(closing := st.closing[s := Releasing([])]); RunFrom(a, CloseSteps(s, safe)) == a
    decreases |safe|
  {
    hide Apply, RunFrom, ApplyCloseNext, ReleaseOwned;
    var a := st.(closing := st.closing[s := Releasing([])]);
    if safe == [] {
      FirstClose(a, s, true, []);
    } else {
      assert safe == [safe[0]] + safe[1..];
      FirstClose(a, s, safe[0], safe[1..]);
      CloseStepIs(st, s, [], safe[0]);
      NoMoreCloses(st, s, safe[1..]);
    }
  }

  /** The cleanup loop run without interruption is a run of the step system. */
  lemma {:induction false} CloseEachIsRun(st: State, s: Session, names: seq<Name>, safe: seq<bool>)
    requires |safe| == |names|
    ensures RunFrom(st.(closing := st.closing[s := Releasing(names)]), CloseSteps(s, safe))
            == CloseEach(st, s, names, safe).(closing := st.closing[s := Releasing([])])
    decreases |names|
  {
    hide Apply, RunFrom, ApplyCloseNext, ReleaseOwned;
    var a := st.(closing := st.closing[s := Releasing(names)]);
    if names == [] {
      FirstClose(a, s, true, []);
    } else {
      assert safe == [safe[0]] + safe[1..];
      FirstClose(a, s, safe[0], safe[1..]);
      CloseStepIs(st, s, names, safe[0]);
      if names[0] !in st.registry {
        NoMoreCloses(st, s, safe[1..]);
      } else {
        CloseEachIsRun(ReleaseOwned(st, names[0], s, safe[0]), s, names[1..], safe[1..]);
      }
    }
  }

  // ---------------------------------------------------------------- IREAD

  /** What a driver call gives, the status that is noted, and the objects afterwards; only READY is called. */
  function CallValue(inst: Instrument, outcome: Outcome): Option<string> {
    if inst.status == Ready then UseValue(outcome) else None
  }

  function CallStatus(inst: Instrument, outcome: Outcome): string {
    if inst.status == Ready then UseStatus(outcome) else ErrorStatus(NotReadyText(inst))
  }

  function AfterCall(objs: map<ObjId, Instrument>, o: ObjId, outcome: Outcome): map<ObjId, Instrument> {
    if o in objs && objs[o].status == Ready then AfterUse(objs, o, outcome) else objs
  }

  /** The driver call of IREAD on an instrument the session owns. */
  function CallSpec(st: State, o: ObjId, mark: Option<(Name, string)>, outcome: Outcome): State {
    if o !in st.objs then st
    else
      st.(objs := AfterCall(st.objs, o, outcome),
          meas := NoteMark(st.meas, mark, CallValue(st.objs[o], outcome), CallStatus(st.objs[o], outcome)))
  }

  /** IREAD with its one driver call ending in `outcome`. */
  function ReadSpec(st: State, s: Session, args: seq<string>, marked: bool, outcome: Outcome): State {
    if ReadTarget(args).None? then st
    else
      var (n, r) := ReadTarget(args).value;
      ReadOf(st, s, n, if marked then Some((n, r)) else None, outcome)
  }

  /** IREAD of a resource of instrument `n`, to be noted under `mark`. */
  function ReadOf(st: State, s: Session, n: Name, mark: Option<(Name, string)>, outcome: Outcome): State {
    if n !in st.registry then st.(meas := NoteMark(st.meas, mark, None, ErrorStatus(NotFoundText(n))))
    else if !OwnedBy(st, n, s) then st
    else CallSpec(st, st.registry[n], mark, outcome)
  }

  /** What the client is told. */
  function ReadReply(st: State, s: Session, args: seq<string>, outcome: Outcome): Registry.Reply {
    if ReadTarget(args).None? then Registry.BadArguments
    else
      var reply := Registry.UseReply(st, s, ReadTarget(args).value.0);
      if reply == Registry.Done && !outcome.Returned? then Registry.DriverFailed else reply
  }

  // ---------------------------------------------------------------- what IREAD reads and notes

  /** Two arguments, or one with a colon: what is before its first colon and what is behind it. */
  lemma ReadTargetIs(n: string, r: string, more: seq<string>)
    requires ':' !in n
    ensures ReadTarget([n]) == None && ReadTarget([n, r] + more) == Some((n, r))
    ensures ReadTarget([n + ":" + r] + more) == if n == "" || r == "" then None else Some((n, r))
  {
    var address := n + ":" + r;
    assert FindColon(n, 0) == |n|;
    assert address[|n|] == ':' && address[..|n|] == n && address[|n| + 1..] == r;
    assert forall j :: 0 <= j < |n| ==> address[j] == n[j];
    assert FindColon(address, 0) == |n|;
  }

  ghost predicate MentionsTimeout(text: string) {
    exists i, j :: 0 <= i <= j <= |text| && AnyCase(text[i..j], "timeout")
  }

  /** TIMEOUT if the text mentions one in any case, otherwise ERROR and the text. */
  lemma ErrorStatusIs(text: string)
    ensures ErrorStatus(text) == if MentionsTimeout(text) then "TIMEOUT" else "ERROR " + text
  {
    hide Contains, Lower;
    LowerContainsIff(text, "timeout");
  }

  /** Why an instrument of its owner is not called, by its state. */
  lemma NotReadyTold(inst: Instrument)
    ensures inst.status == Locked ==> NotReadyText(inst) == inst.name + " requires INIT or ALIGN"
    ensures inst.status == Unresponsive ==>
              NotReadyText(inst) == inst.name + " is UNRESPONSIVE, requires INSTRUMENT.RESET"
    ensures inst.status == Fault ==> NotReadyText(inst) == inst.name + " is FAULT, requires INSTRUMENT.RESET"
    ensures inst.status == Idle ==> NotReadyText(inst) == inst.name + " not locked"
  {
  }

  /** The measurements with one entry for resource `r` of `n`. */
  function Entered(meas: map<string, Meas>, n: Name, r: string, value: Option<string>, status: string)
    : map<string, Meas>
  {
    meas["_meas:" + n + ":" + r := Meas(value, status)]
  }

  ghost function ErrorText(text: string): string {
    if MentionsTimeout(text) then "TIMEOUT" else "ERROR " + text
  }

  /**
   * IREAD with the MEAS flag of a resource of an instrument that is registered as `n`: a stranger's notes and
   * changes nothing; the owner's notes the value that was read, or no value and why there is none, and only a
   * timeout or a crash of the call changes the state of the instrument.
   */
  lemma ReadNotes(st: State, s: Session, args: seq<string>, n: Name, r: string, o: ObjId, outcome: Outcome)
    requires ReadTarget(args) == Some((n, r)) && n in st.registry && st.registry[n] == o && o in st.objs
    ensures var b := ReadSpec(st, s, args, true, outcome);
            var inst := st.objs[o];
            if inst.owner != Some(s) then b == st
            else if inst.status != Ready then
              b == st.(meas := Entered(st.meas, n, r, None, ErrorText(NotReadyText(inst))))
            else
              match outcome
              case Returned(text) => b == st.(meas := Entered(st.meas, n, r, Some(text), "OK"))
              case Refused(text) => b == st.(meas := Entered(st.meas, n, r, None, ErrorText(text)))
              case Crashed(text) =>
                b == st.(objs := st.objs[o := inst.(status := Fault)],
                         meas := Entered(st.meas, n, r, None, ErrorText(text)))
              case TimedOut =>
                b == st.(objs := st.objs[o := inst.(status := Unresponsive)],
                         meas := Entered(st.meas, n, r, None, "TIMEOUT"))
  {
    hide ReadTarget, ErrorStatus, NotReadyText, MentionsTimeout;
    ErrorStatusIs(NotReadyText(st.objs[o]));
    if outcome.Refused? || outcome.Crashed? {
      ErrorStatusIs(outcome.text);
    }
  }

  /** What the client is told: the value only if the owner's call of a READY instrument returns, else the reason. */
  lemma ReadTold(st: State, s: Session, args: seq<string>, n: Name, r: string, o: ObjId, outcome: Outcome)
    requires ReadTarget(args) == Some((n, r)) && n in st.registry && st.registry[n] == o && o in st.objs
    ensures var admitted := st.objs[o].owner == Some(s) && st.objs[o].status == Ready;
            && (ReadReply(st, s, args, outcome) == Registry.Done <==> admitted && outcome.Returned?)
            && (ReadReply(st, s, args, outcome) == Registry.DriverFailed <==> admitted && !outcome.Returned?)
            && (!admitted ==> ReadReply(st, s, args, outcome) == Registry.UseReply(st, s, n))
  {
    hide ReadTarget;
  }

  lemma CallUnmarked(st: State, o: ObjId, mark: Option<(Name, string)>, outcome: Outcome)
    ensures CallSpec(st, o, None, outcome) == CallSpec(st, o, mark, outcome).(meas := st.meas)
  {
    hide AfterCall, CallValue, CallStatus, WriteMeasSpec;
  }

  lemma ReadOfUnmarked(st: State, s: Session, n: Name, mark: Option<(Name, string)>, outcome: Outcome)
    ensures ReadOf(st, s, n, None, outcome) == ReadOf(st, s, n, mark, outcome).(meas := st.meas)
  {
    hide ErrorStatus, NotFoundText, CallSpec, WriteMeasSpec;
    if OwnedBy(st, n, s) {
      CallUnmarked(st, st.registry[n], mark, outcome);
    }
  }

  /** Without the flag nothing is noted. */
  lemma ReadUnmarked(st: State, s: Session, args: seq<string>, outcome: Outcome)
    ensures ReadSpec(st, s, args, false, outcome) == ReadSpec(st, s, args, true, outcome).(meas := st.meas)
  {
    hide ReadTarget, ReadOf;
    if ReadTarget(args).Some? {
      ReadOfUnmarked(st, s, ReadTarget(args).value.0, Some(ReadTarget(args).value), outcome);
    }
  }

  /** An unknown instrument is noted as an error under its name. */
  lemma ReadUnknown(st: State, s: Session, args: seq<string>, n: Name, r: string, outcome: Outcome)
    requires ReadTarget(args) == Some((n, r)) && n !in st.registry
    ensures ReadSpec(st, s, args, true, outcome)
            == st.(meas := Entered(st.meas, n, r, None, ErrorText("instrument '" + n + "' not found")))
  {
    hide ReadTarget, ErrorStatus, CallSpec, OwnedBy, MentionsTimeout;
    ErrorStatusIs(NotFoundText(n));
  }

  /** IUNWATCH of one resource: its entry, if there is one, is STALE with its value, and no other changes. */
  lemma UnwatchStale(st: State, s: Session, n: Name, r: string, k: string)
    requires CanStart(st, s) && n in st.watches && r in st.watches[n]
    ensures var b := ApplyUnwatch(st, s, n, r).meas;
            && b == MarkStale(st.meas, n, r) && (k in b <==> k in st.meas)
            && (k in b ==> b[k] == if k == "_meas:" + n + ":" + r then Meas(st.meas[k].value, STALE) else st.meas[k])
  {
    hide StopGuard;
  }

  // ---------------------------------------------------------------- IREAD as an interleaving

  lemma RunFour(st: State, a: Step, b: Step, c: Step, d: Step)
    ensures RunFrom(st, [a, b, c, d]) == Apply(Apply(Apply(Apply(st, a), b), c), d)
  {
    hide Apply, RunFrom;
    assert [a, b, c, d] == [a] + [b, c, d] && [b, c, d] == [b] + [c, d] && [c, d] == [c] + [d] && [d] == [d] + [];
    RunCons(st, a, [b, c, d]);
    RunCons(Apply(st, a), b, [c, d]);
    RunCons(Apply(Apply(st, a), b), c, [d]);
    RunCons(Apply(Apply(Apply(st, a), b), c), d, []);
    RunNone(Apply(Apply(Apply(Apply(st, a), b), c), d));
  }

  lemma RunNone(st: State)
    ensures RunFrom(st, []) == st
  {
    hide Apply;
  }

  /** IREAD makes one driver call. */
  const ONLY: nat := 0

  /** IREAD without interruption is a run of the step system. */
  lemma ReadIsRun(st: State, s: Session, args: seq<string>, marked: bool, outcome: Outcome)
    requires st.command.None? && s in st.live
    ensures RunFrom(st, [BeginRead(s, args, marked), UseStart(ONLY), UseReturn(ONLY, outcome), UseDone])
            == ReadSpec(st, s, args, marked, outcome)
  {
    hide Apply, RunFrom, ReadSpec, ApplyBeginRead, ApplyUseStart, ApplyUseReturn, ApplyUseDone, ApplyBeginInit,
      ApplyInitReturn, ApplyReset, ApplyWatch;
    var a := ApplyBeginRead(st, s, args, marked);
    var b := ApplyUseStart(a, ONLY);
    RunFour(st, BeginRead(s, args, marked), UseStart(ONLY), UseReturn(ONLY, outcome), UseDone);
    PerformsCall(st, BeginRead(s, args, marked));
    PerformsCall(a, UseStart(ONLY));
    PerformsCall(b, UseReturn(ONLY, outcome));
    PerformsCall(ApplyUseReturn(b, ONLY, outcome), UseDone);
    ReadSteps(st, s, args, marked, outcome);
  }

  /** IREAD ends at once. */
  predicate Refuses(st: State, s: Session, args: seq<string>) {
    ReadTarget(args).None? || ReadTarget(args).value.0 !in st.registry || !OwnedBy(st, ReadTarget(args).value.0, s)
  }

  lemma ReadRefused(st: State, s: Session, args: seq<string>, marked: bool, outcome: Outcome)
    requires CanStart(st, s) && Refuses(st, s, args)
    ensures ApplyBeginRead(st, s, args, marked) == ReadSpec(st, s, args, marked, outcome)
    ensures ApplyBeginRead(st, s, args, marked).command.None?
  {
    hide ReadTarget, WriteMeasSpec, ErrorStatus, NotFoundText, CallSpec, OwnedBy;
  }

  lemma ReadAdmitted(st: State, s: Session, args: seq<string>, marked: bool, outcome: Outcome)
    requires CanStart(st, s) && !Refuses(st, s, args)
    ensures var (n, r) := ReadTarget(args).value;
            var mark := if marked then Some((n, r)) else None;
            && ApplyBeginRead(st, s, args, marked) == st.(command := Some(Using(s, [st.registry[n]], [], mark)))
            && ReadSpec(st, s, args, marked, outcome) == CallSpec(st, st.registry[n], mark, outcome)
  {
    hide ReadTarget, WriteMeasSpec, ErrorStatus, NotFoundText, CallSpec, OwnedBy;
  }

  lemma ReadSteps(st: State, s: Session, args: seq<string>, marked: bool, outcome: Outcome)
    requires CanStart(st, s)
    ensures ApplyUseDone(ApplyUseReturn(ApplyUseStart(ApplyBeginRead(st, s, args, marked), ONLY), ONLY, outcome))
            == ReadSpec(st, s, args, marked, outcome)
  {
    hide ReadTarget, ReadSpec, CallSpec, ApplyBeginRead, ApplyUseStart, ApplyUseReturn, ApplyUseDone;
    if Refuses(st, s, args) {
      ReadRefused(st, s, args, marked, outcome);
      NoUse(ApplyBeginRead(st, s, args, marked), outcome);
    } else {
      var (n, r) := ReadTarget(args).value;
      ReadAdmitted(st, s, args, marked, outcome);
      ReadCall(st, s, n, if marked then Some((n, r)) else None, outcome);
    }
  }

  /** Without a use command in flight its steps do nothing. */
  lemma NoUse(st: State, outcome: Outcome)
    requires st.command.None?
    ensures ApplyUseStart(st, ONLY) == st && ApplyUseReturn(st, ONLY, outcome) == st && ApplyUseDone(st) == st
  {
  }

  lemma OneStarts(st: State, s: Session, o: ObjId, mark: Option<(Name, string)>)
    requires o in st.objs
    ensures var b := ApplyUseStart(st.(command := Some(Using(s, [o], [], mark))), ONLY);
            if st.objs[o].status == Ready then b == st.(command := Some(Using(s, [], [o], mark)))
            else
              b == st.(command := Some(Using(s, [], [], mark)),
                       meas := NoteMark(st.meas, mark, None, ErrorStatus(NotReadyText(st.objs[o]))))
  {
    hide NoteMark, ErrorStatus, NotReadyText;
    assert RemoveAt([o], 0) == [] && [] + [o] == [o];
  }

  lemma OneReturns(st: State, s: Session, o: ObjId, mark: Option<(Name, string)>, outcome: Outcome)
    ensures ApplyUseReturn(st.(command := Some(Using(s, [], [o], mark))), ONLY, outcome)
            == st.(command := Some(Using(s, [], [], mark)), objs := AfterUse(st.objs, o, outcome),
                   meas := NoteMark(st.meas, mark, UseValue(outcome), UseStatus(outcome)))
    ensures ApplyUseReturn(st.(command := Some(Using(s, [], [], mark))), ONLY, outcome)
            == st.(command := Some(Using(s, [], [], mark)))
    ensures ApplyUseDone(st.(command := Some(Using(s, [], [], mark)))) == st.(command := None)
  {
    hide NoteMark, AfterUse, UseStatus, UseValue;
    assert RemoveAt([o], 0) == [];
  }

  lemma ReadCall(st: State, s: Session, n: Name, mark: Option<(Name, string)>, outcome: Outcome)
    requires st.command.None? && OwnedBy(st, n, s)
    ensures var a := st.(command := Some(Using(s, [st.registry[n]], [], mark)));
            ApplyUseDone(ApplyUseReturn(ApplyUseStart(a, ONLY), ONLY, outcome))
            == CallSpec(st, st.registry[n], mark, outcome)
  {
    hide CallSpec, ApplyUseStart, ApplyUseReturn, ApplyUseDone, NoteMark, ErrorStatus, NotReadyText;
    var o := st.registry[n];
    var none := Some(Using(s, [], [], mark));
    var b := CallSpec(st, o, mark, outcome);
    OneStarts(st, s, o, mark);
    CallIs(st, s, o, mark, outcome);
    OneReturns(st, s, o, mark, outcome);
    OneReturns(b, s, o, mark, outcome);
    assert b.(command := none).(command := None) == b;
  }

  /** The call as the last states of the command. */
  lemma CallIs(st: State, s: Session, o: ObjId, mark: Option<(Name, string)>, outcome: Outcome)
    requires o in st.objs && st.command.None?
    ensures var b := CallSpec(st, o, mark, outcome);
            && b.command.None?
            && (st.objs[o].status == Ready ==>
                  b == st.(objs := AfterUse(st.objs, o, outcome),
                           meas := NoteMark(st.meas, mark, UseValue(outcome), UseStatus(outcome))))
            && (st.objs[o].status != Ready ==>
                  b == st.(meas := NoteMark(st.meas, mark, None, ErrorStatus(NotReadyText(st.objs[o])))))
  {
    hide NoteMark, AfterUse, UseStatus, UseValue, ErrorStatus, NotReadyText;
  }

  // ---------------------------------------------------------------- a turn of a guard

  /** Where a turn of a guard is left by an exception: writing the first event, one of a trip, or nowhere. */
  datatype Loss = NotLost | LostNoting | LostTripping

  function VerdictOf(g: Guard, outcome: Outcome, number: Option<real>): Option<string> {
    if outcome.Returned? && Violates(number, g.low, g.high) then Some(outcome.text) else None
  }

  /** The read is noted. */
  function Noted(st: State, g: Guard, outcome: Outcome): (b: State)
    ensures b == st.(objs := b.objs, meas := b.meas)
  {
    st.(objs := AfterFailure(st.objs, g.obj, outcome),
        meas := if outcome.Returned? then WriteMeasSpec(st.meas, g.name, g.resource, Some(outcome.text), "OK")
                else WriteMeasSpec(st.meas, g.name, g.resource, None, "ERROR"))
  }

  function Tripped(st: State, g: Guard, text: string): (b: State)
    ensures b == st.(objs := b.objs, meas := b.meas)
  {
    st.(objs := WithStatus(st.objs, g.obj, Fault),
        meas := WriteMeasSpec(st.meas, g.name, g.resource, Some(text), "GUARD_FAULT"))
  }

  function EndedIf(st: State, t: TaskId, ended: bool): State {
    if ended then st.(guards := st.guards - {t}) else st
  }

  /** The turn of guard `g` on a READY instrument. */
  function ReadyTurn(st: State, t: TaskId, g: Guard, outcome: Outcome, number: Option<real>, loss: Loss): State {
    if outcome.Crashed? then EndedIf(st, t, true)
    else if loss == LostNoting then EndedIf(Noted(st, g, outcome), t, true)
    else
      var verdict := VerdictOf(g, outcome, number);
      if verdict.None? then Noted(st, g, outcome)
      else EndedIf(Tripped(Noted(st, g, outcome), g, verdict.value), t, loss == LostTripping)
  }

  /**
   * One turn of a guard's loop with its read ending in `outcome`. A turn that is lost while the
   * first event is written does not come to its threshold.
   */
  function TurnSpec(st: State, t: TaskId, outcome: Outcome, number: Option<real>, loss: Loss): State {
    if t !in st.guards || st.guards[t].obj !in st.objs || st.objs[st.guards[t].obj].status != Ready then st
    else ReadyTurn(st, t, st.guards[t], outcome, number, loss)
  }

  /** Guard `g` is asleep as task `t`. */
  predicate Asleep(st: State, t: TaskId, g: Guard) {
    t in st.guards && st.guards[t] == g && g.phase.Sleeping? && g.obj in st.objs
  }

  /** The state with guard `g` in another phase. */
  function InPhase(st: State, t: TaskId, g: Guard, phase: Phase): State {
    st.(guards := st.guards[t := g.(phase := phase)])
  }

  lemma RunSix(st: State, a: Step, b: Step, c: Step, d: Step, e: Step, f: Step)
    ensures RunFrom(st, [a, b, c, d, e, f]) == Apply(Apply(Apply(Apply(Apply(Apply(st, a), b), c), d), e), f)
  {
    hide Apply, RunFrom;
    assert [a, b, c, d, e, f] == [a] + [b, c, d, e, f] && [b, c, d, e, f] == [b] + [c, d, e, f];
    RunCons(st, a, [b, c, d, e, f]);
    RunCons(Apply(st, a), b, [c, d, e, f]);
    RunFour(Apply(Apply(st, a), b), c, d, e, f);
  }

  /** A guard that is neither writing nor reading nor tripping is left alone by all its steps but the tick. */
  lemma SleepingStays(st: State, t: TaskId, outcome: Outcome, number: Option<real>)
    requires t !in st.guards || st.guards[t].phase.Sleeping?
    ensures ApplyGuardReturn(st, t, outcome, number) == st && ApplyGuardTrip(st, t) == st
    ensures ApplyGuardPublish(st, t) == st
  {
    if t in st.guards {
      assert st.guards[t := st.guards[t].(phase := Sleeping)] == st.guards;
    }
  }

  lemma TickReads(st: State, t: TaskId, g: Guard)
    requires Asleep(st, t, g)
    ensures ApplyGuardTick(st, t) == if st.objs[g.obj].status == Ready then InPhase(st, t, g, Reading) else st
  {
  }

  lemma ReturnNotes(st: State, t: TaskId, g: Guard, outcome: Outcome, number: Option<real>)
    ensures ApplyGuardReturn(InPhase(st, t, g, Reading), t, outcome, number) ==
              if outcome.Crashed? then EndedIf(st, t, true)
              else
                InPhase(Noted(st, g, outcome), t, g,
                  NotePhase(st.subs, g.name, g.resource, VerdictOf(g, outcome, number)))
  {
    hide NotePhase, WriteMeasSpec, AfterFailure, Violates;
    var a := InPhase(st, t, g, Reading);
    assert a.guards - {t} == st.guards - {t};
    assert forall phase :: a.guards[t := g.(phase := phase)] == st.guards[t := g.(phase := phase)];
  }

  lemma Publishes(st: State, t: TaskId, g: Guard, phase: Phase)
    ensures !Disturbed(st.subs, phase) ==>
              ApplyGuardPublish(InPhase(st, t, g, phase), t) == InPhase(st, t, g, PublishedPhase(st.subs, phase))
    ensures Disturbed(st.subs, phase) ==> ApplyGuardPublish(InPhase(st, t, g, phase), t) == EndedIf(st, t, true)
  {
    hide PublishedPhase, Disturbed;
    var a, next := InPhase(st, t, g, phase), PublishedPhase(st.subs, phase);
    assert a.guards - {t} == st.guards - {t};
    assert a.guards[t := g.(phase := next)] == st.guards[t := g.(phase := next)];
  }

  lemma TripTrips(st: State, t: TaskId, g: Guard, text: string)
    ensures ApplyGuardTrip(InPhase(st, t, g, Tripping(text)), t)
            == InPhase(Tripped(st, g, text), t, g, TripPhase(st.subs, g.name, g.resource))
  {
    hide TripPhase, WriteMeasSpec, WithStatus;
    var a, phase := InPhase(st, t, g, Tripping(text)), TripPhase(st.subs, g.name, g.resource);
    assert a.guards[t := g.(phase := phase)] == st.guards[t := g.(phase := phase)];
  }

  /** While nobody subscribes or goes, the events of a read and of a trip are written. */
  lemma Settles(st: State, t: TaskId, g: Guard, verdict: Option<string>)
    ensures ApplyGuardPublish(InPhase(st, t, g, NotePhase(st.subs, g.name, g.resource, verdict)), t)
            == InPhase(st, t, g, AfterVerdict(verdict))
    ensures ApplyGuardPublish(ApplyGuardPublish(InPhase(st, t, g, TripPhase(st.subs, g.name, g.resource)), t), t)
            == InPhase(st, t, g, Sleeping)
  {
    hide ApplyGuardPublish, InPhase, Awaits, Audience;
    Publishes(st, t, g, NotePhase(st.subs, g.name, g.resource, verdict));
    Publishes(st, t, g, TripPhase(st.subs, g.name, g.resource));
    Publishes(st, t, g, AnnouncePhase(st.subs));
    Publishes(st, t, g, Sleeping);
  }

  lemma StaysAsleep(st: State, t: TaskId, g: Guard)
    requires t in st.guards && st.guards[t] == g && g.phase.Sleeping?
    ensures InPhase(st, t, g, Sleeping) == st
  {
    assert g.(phase := Sleeping) == g && st.guards[t := g] == st.guards;
  }

  lemma TurnSteps(st: State, t: TaskId, g: Guard, outcome: Outcome, number: Option<real>)
    requires Asleep(st, t, g)
    ensures var judged := ApplyGuardPublish(ApplyGuardReturn(ApplyGuardTick(st, t), t, outcome, number), t);
            ApplyGuardPublish(ApplyGuardPublish(ApplyGuardTrip(judged, t), t), t)
            == if st.objs[g.obj].status == Ready then ReadyTurn(st, t, g, outcome, number, NotLost) else st
  {
    var ended, noted, verdict := EndedIf(st, t, true), Noted(st, g, outcome), VerdictOf(g, outcome, number);
    hide ApplyGuardTick, ApplyGuardReturn, ApplyGuardPublish, ApplyGuardTrip, InPhase, Noted, Tripped, NotePhase,
      TripPhase, VerdictOf;
    TickReads(st, t, g);
    SleepingStays(st, t, outcome, number);
    SleepingStays(ended, t, outcome, number);
    ReturnNotes(st, t, g, outcome, number);
    Settles(noted, t, g, verdict);
    StaysAsleep(noted, t, g);
    SleepingStays(noted, t, outcome, number);
    if verdict.Some? {
      var tripped := Tripped(noted, g, verdict.value);
      TripTrips(noted, t, g, verdict.value);
      Settles(tripped, t, g, None);
      StaysAsleep(tripped, t, g);
    }
  }

  /** A turn without interruption is a run of the step system. */
  lemma TurnIsRun(st: State, t: TaskId, g: Guard, outcome: Outcome, number: Option<real>)
    requires Asleep(st, t, g)
    ensures RunFrom(st, [GuardTick(t), GuardReturn(t, outcome, number), GuardPublish(t), GuardTrip(t), GuardPublish(t),
                         GuardPublish(t)])
            == TurnSpec(st, t, outcome, number, NotLost)
  {
    hide Apply, RunFrom, ApplyGuardTick, ApplyGuardReturn, ApplyGuardPublish, ApplyGuardTrip, ApplyHealthTick,
      ApplyHealthReturn, ApplyHealthPublish, ReadyTurn;
    RunSix(st, GuardTick(t), GuardReturn(t, outcome, number), GuardPublish(t), GuardTrip(t), GuardPublish(t),
           GuardPublish(t));
    var a := ApplyGuardTick(st, t);
    var b := ApplyGuardReturn(a, t, outcome, number);
    var c := ApplyGuardPublish(b, t);
    var d := ApplyGuardTrip(c, t);
    PerformsTask(st, GuardTick(t));
    PerformsTask(a, GuardReturn(t, outcome, number));
    PerformsTask(b, GuardPublish(t));
    PerformsTask(c, GuardTrip(t));
    PerformsTask(d, GuardPublish(t));
    PerformsTask(ApplyGuardPublish(d, t), GuardPublish(t));
    TurnSteps(st, t, g, outcome, number);
  }

  /**
   * What a turn on a READY instrument leaves behind: a reading below the lower limit or above the upper one,
   * each if there is one, makes it FAULT and notes the value as the fault; one between the limits, or one
   * that is no number, only notes the value.
   */
  lemma TurnDecides(st: State, t: TaskId, g: Guard, text: string, number: Option<real>)
    requires Asleep(st, t, g) && HasStatus(st, g.obj, Ready)
    ensures var b := TurnSpec(st, t, Returned(text), number, NotLost);
            var below := number.Some? && g.low.Some? && number.value < g.low.value;
            var above := number.Some? && g.high.Some? && number.value > g.high.value;
            && (below || above ==>
                  b == st.(objs := st.objs[g.obj := st.objs[g.obj].(status := Fault)],
                           meas := st.meas[MeasKey(g.name, g.resource) := Meas(Some(text), "GUARD_FAULT")]))
            && (!below && !above ==>
                  b == st.(meas := st.meas[MeasKey(g.name, g.resource) := Meas(Some(text), "OK")]))
  {
    hide MeasKey;
  }

  // ---------------------------------------------------------------- a turn that is lost

  lemma OneLess(subs: set<(Session, string)>, sub: (Session, string), base: string)
    requires sub in subs && Events.ParseChannel(sub.1).0 == base
    ensures Audience(subs - {sub}, base) == Audience(subs, base) - 1
  {
    hide Events.ParseChannel;
    var before := set x | x in subs && Events.ParseChannel(x.1).0 == base;
    var after := set x | x in subs - {sub} && Events.ParseChannel(x.1).0 == base;
    assert before == after + {sub};
  }

  /** Somebody listens to the measurements of guard `g`, and `sub` is a subscription to measurements. */
  predicate Heard(st: State, g: Guard, sub: (Session, string)) {
    Awaits(st.subs, "meas", Some(g.name + ":" + g.resource)) && sub in st.subs && Events.ParseChannel(sub.1).0 == "meas"
  }

  /** A subscription to the channel that is being written to goes: the task ends. */
  lemma DropEnds(st: State, t: TaskId, g: Guard, phase: Phase, sub: (Session, string))
    requires sub in st.subs && Events.ParseChannel(sub.1).0 == "meas"
    requires (phase.Noting? || phase.NotingTrip?) && phase.size == Audience(st.subs, "meas")
    ensures ApplyGuardPublish(ApplyDrop(InPhase(st, t, g, phase), sub.0, sub.1), t)
            == EndedIf(st, t, true).(subs := st.subs - {sub})
  {
    hide ApplyGuardPublish, Audience, Events.ParseChannel;
    OneLess(st.subs, sub, "meas");
    Publishes(st.(subs := st.subs - {sub}), t, g, phase);
    assert ApplyDrop(InPhase(st, t, g, phase), sub.0, sub.1) == InPhase(st.(subs := st.subs - {sub}), t, g, phase);
  }

  lemma LostNoteSteps(st: State, t: TaskId, g: Guard, outcome: Outcome, number: Option<real>, sub: (Session, string))
    requires Asleep(st, t, g) && HasStatus(st, g.obj, Ready) && !outcome.Crashed? && Heard(st, g, sub)
    ensures ApplyGuardPublish(
              ApplyDrop(ApplyGuardReturn(ApplyGuardTick(st, t), t, outcome, number), sub.0, sub.1), t)
            == ReadyTurn(st, t, g, outcome, number, LostNoting).(subs := st.subs - {sub})
  {
    var noted := Noted(st, g, outcome);
    var phase := NotePhase(st.subs, g.name, g.resource, VerdictOf(g, outcome, number));
    hide ApplyGuardTick, ApplyGuardReturn, ApplyGuardPublish, ApplyDrop, InPhase, Noted, Tripped, VerdictOf, Audience,
      Awaits, Events.ParseChannel;
    TickReads(st, t, g);
    ReturnNotes(st, t, g, outcome, number);
    DropEnds(noted, t, g, phase, sub);
  }

  lemma LostTripSteps(st: State, t: TaskId, g: Guard, outcome: Outcome, number: Option<real>, sub: (Session, string))
    requires Asleep(st, t, g) && HasStatus(st, g.obj, Ready) && VerdictOf(g, outcome, number).Some? && Heard(st, g, sub)
    ensures var judged := ApplyGuardPublish(ApplyGuardReturn(ApplyGuardTick(st, t), t, outcome, number), t);
            ApplyGuardPublish(ApplyDrop(ApplyGuardTrip(judged, t), sub.0, sub.1), t)
            == ReadyTurn(st, t, g, outcome, number, LostTripping).(subs := st.subs - {sub})
  {
    assert !outcome.Crashed?;
    var noted, verdict := Noted(st, g, outcome), VerdictOf(g, outcome, number);
    var tripped, phase := Tripped(noted, g, verdict.value), TripPhase(st.subs, g.name, g.resource);
    hide ApplyGuardTick, ApplyGuardReturn, ApplyGuardPublish, ApplyGuardTrip, ApplyDrop, InPhase, Noted, Tripped,
      NotePhase, VerdictOf, Audience, Awaits, Events.ParseChannel;
    TickReads(st, t, g);
    ReturnNotes(st, t, g, outcome, number);
    Settles(noted, t, g, verdict);
    TripTrips(noted, t, g, verdict.value);
    DropEnds(tripped, t, g, phase, sub);
  }

  /**
   * Somebody listens to the guard's measurements and a subscription to measurements goes while the
   * first event is written: the turn ends there, the threshold unchecked.
   */
  lemma LostNoteIsRun(st: State, t: TaskId, g: Guard, outcome: Outcome, number: Option<real>, sub: (Session, string))
    requires Asleep(st, t, g) && HasStatus(st, g.obj, Ready) && !outcome.Crashed? && Heard(st, g, sub)
    ensures RunFrom(st, [GuardTick(t), GuardReturn(t, outcome, number), DropSubscriber(sub.0, sub.1), GuardPublish(t)])
            == TurnSpec(st, t, outcome, number, LostNoting).(subs := st.subs - {sub})
  {
    hide Apply, RunFrom, ApplyGuardTick, ApplyGuardReturn, ApplyGuardPublish, ApplyGuardTrip, ApplyHealthTick,
      ApplyHealthReturn, ApplyHealthPublish, ApplyDrop, ApplyUnlockNext, ApplyCloseNext, ReadyTurn, Heard;
    RunFour(st, GuardTick(t), GuardReturn(t, outcome, number), DropSubscriber(sub.0, sub.1), GuardPublish(t));
    var a := ApplyGuardTick(st, t);
    var b := ApplyGuardReturn(a, t, outcome, number);
    PerformsTask(st, GuardTick(t));
    PerformsTask(a, GuardReturn(t, outcome, number));
    Performs(b, DropSubscriber(sub.0, sub.1));
    PerformsTask(ApplyDrop(b, sub.0, sub.1), GuardPublish(t));
    LostNoteSteps(st, t, g, outcome, number, sub);
  }

  /** The same while the measurement event of a trip is written: the trip is done, the task is gone. */
  lemma LostTripIsRun(st: State, t: TaskId, g: Guard, outcome: Outcome, number: Option<real>, sub: (Session, string))
    requires Asleep(st, t, g) && HasStatus(st, g.obj, Ready) && VerdictOf(g, outcome, number).Some? && Heard(st, g, sub)
    ensures RunFrom(st, [GuardTick(t), GuardReturn(t, outcome, number), GuardPublish(t), GuardTrip(t),
                         DropSubscriber(sub.0, sub.1), GuardPublish(t)])
            == TurnSpec(st, t, outcome, number, LostTripping).(subs := st.subs - {sub})
  {
    hide Apply, RunFrom, ApplyGuardTick, ApplyGuardReturn, ApplyGuardPublish, ApplyGuardTrip, ApplyHealthTick,
      ApplyHealthReturn, ApplyHealthPublish, ApplyDrop, ApplyUnlockNext, ApplyCloseNext, ReadyTurn, Heard, VerdictOf;
    RunSix(st, GuardTick(t), GuardReturn(t, outcome, number), GuardPublish(t), GuardTrip(t),
           DropSubscriber(sub.0, sub.1), GuardPublish(t));
    var a := ApplyGuardTick(st, t);
    var b := ApplyGuardReturn(a, t, outcome, number);
    var c := ApplyGuardPublish(b, t);
    var d := ApplyGuardTrip(c, t);
    PerformsTask(st, GuardTick(t));
    PerformsTask(a, GuardReturn(t, outcome, number));
    PerformsTask(b, GuardPublish(t));
    PerformsTask(c, GuardTrip(t));
    Performs(d, DropSubscriber(sub.0, sub.1));
    PerformsTask(ApplyDrop(d, sub.0, sub.1), GuardPublish(t));
    LostTripSteps(st, t, g, outcome, number, sub);
  }

  // ---------------------------------------------------------------- IUNWATCH ALL is one step

  /** IUNWATCH ALL, name by name. */
  function UnwatchEach(st: State, s: Session, names: seq<Name>): State
    decreases |names|
  {
    if names == [] then st
    else UnwatchEach(if OwnedBy(st, names[0], s) then UnwatchOne(st, names[0]) else st, s, names[1..])
  }

  lemma {:induction false} UnwatchEachFrame(st: State, s: Session, names: seq<Name>)
    ensures var b := UnwatchEach(st, s, names);
            b == st.(watches := b.watches, guards := b.guards, meas := b.meas)
    decreases |names|
  {
    hide OwnedBy, TasksAt, InvalidateSpec;
    if names != [] {
      UnwatchEachFrame(if OwnedBy(st, names[0], s) then UnwatchOne(st, names[0]) else st, s, names[1..]);
    }
  }

  lemma UnwatchOneOwned(st: State, n: Name, m: Name, s: Session)
    ensures OwnedBy(UnwatchOne(st, n), m, s) <==> OwnedBy(st, m, s)
  {
  }

  lemma {:induction false} UnwatchEachWatches(st: State, s: Session, names: seq<Name>, m: Name)
    ensures var b := UnwatchEach(st, s, names);
            && (m in b.watches <==> m in st.watches && !(m in names && OwnedBy(st, m, s)))
            && (m in b.watches ==> b.watches[m] == st.watches[m])
    decreases |names|
  {
    hide OwnedBy, TasksAt, InvalidateSpec;
    if names != [] {
      UnwatchOneOwned(st, names[0], m, s);
      UnwatchEachWatches(if OwnedBy(st, names[0], s) then UnwatchOne(st, names[0]) else st, s, names[1..], m);
      assert m in names <==> m == names[0] || m in names[1..];
    }
  }

  /** Task `t` is listed under a name of `names` that `s` owns. */
  ghost predicate ListedFor(st: State, s: Session, names: seq<Name>, t: TaskId) {
    exists n :: n in names && OwnedBy(st, n, s) && t in TasksAt(st.watches, n)
  }

  lemma {:induction false} UnwatchEachGuards(st: State, s: Session, names: seq<Name>, t: TaskId)
    ensures var b := UnwatchEach(st, s, names);
            && (t in b.guards <==> t in st.guards && !ListedFor(st, s, names, t))
            && (t in b.guards ==> b.guards[t] == st.guards[t])
    decreases |names|
  {
    hide OwnedBy, TasksOf, InvalidateSpec;
    if names != [] {
      var next := if OwnedBy(st, names[0], s) then UnwatchOne(st, names[0]) else st;
      UnwatchEachGuards(next, s, names[1..], t);
      forall n ensures OwnedBy(next, n, s) <==> OwnedBy(st, n, s) {
        UnwatchOneOwned(st, names[0], n, s);
      }
      assert forall n :: n in names <==> n == names[0] || n in names[1..];
    }
  }

  /** Entry `k` belongs to a name of `names` that `s` owns. */
  ghost predicate MeasuredFor(st: State, s: Session, names: seq<Name>, k: string) {
    exists n :: n in names && OwnedBy(st, n, s) && MeasPrefix(n) <= k
  }

  lemma {:induction false} UnwatchEachMeas(st: State, s: Session, names: seq<Name>, k: string)
    ensures var b := UnwatchEach(st, s, names);
            && (k in b.meas <==> k in st.meas)
            && (k in b.meas ==>
                  b.meas[k] == if MeasuredFor(st, s, names, k) then st.meas[k].(status := STALE) else st.meas[k])
    decreases |names|
  {
    hide OwnedBy, TasksAt, MeasPrefix;
    if names != [] {
      var next := if OwnedBy(st, names[0], s) then UnwatchOne(st, names[0]) else st;
      UnwatchEachMeas(next, s, names[1..], k);
      forall n ensures OwnedBy(next, n, s) <==> OwnedBy(st, n, s) {
        UnwatchOneOwned(st, names[0], n, s);
      }
      assert forall n :: n in names <==> n == names[0] || n in names[1..];
    }
  }

  lemma AllWatches(st: State, s: Session, names: seq<Name>)
    requires Listing(st, names) && CanStart(st, s)
    ensures ApplyUnwatchAll(st, s).watches == UnwatchEach(st, s, names).watches
  {
    var all, b := ApplyUnwatchAll(st, s), UnwatchEach(st, s, names);
    assert forall n :: OwnedBy(st, n, s) ==> n in names;
    hide OwnedBy, UnwatchEach, MeasPrefix, Listing;
    forall m ensures (m in all.watches <==> m in b.watches) && (m in b.watches ==> all.watches[m] == b.watches[m]) {
      UnwatchEachWatches(st, s, names, m);
    }
  }

  lemma AllGuards(st: State, s: Session, names: seq<Name>)
    requires Listing(st, names) && CanStart(st, s)
    ensures ApplyUnwatchAll(st, s).guards == UnwatchEach(st, s, names).guards
  {
    var all, b := ApplyUnwatchAll(st, s), UnwatchEach(st, s, names);
    assert forall n :: OwnedBy(st, n, s) ==> n in names;
    hide OwnedBy, UnwatchEach, MeasPrefix, Listing;
    forall t ensures (t in all.guards <==> t in b.guards) && (t in b.guards ==> all.guards[t] == b.guards[t]) {
      UnwatchEachGuards(st, s, names, t);
    }
  }

  lemma AllMeas(st: State, s: Session, names: seq<Name>)
    requires Listing(st, names) && CanStart(st, s)
    ensures ApplyUnwatchAll(st, s).meas == UnwatchEach(st, s, names).meas
  {
    var all, b := ApplyUnwatchAll(st, s), UnwatchEach(st, s, names);
    assert forall n :: OwnedBy(st, n, s) ==> n in st.registry && n in names;
    hide OwnedBy, UnwatchEach, MeasPrefix, Listing;
    forall k ensures (k in all.meas <==> k in b.meas) && (k in b.meas ==> all.meas[k] == b.meas[k]) {
      UnwatchEachMeas(st, s, names, k);
    }
  }

  /** Going through a complete listing name by name is the step `UnwatchAll`. */
  lemma UnwatchEachIsAll(st: State, s: Session, names: seq<Name>)
    requires Listing(st, names) && CanStart(st, s)
    ensures ApplyUnwatchAll(st, s) == UnwatchEach(st, s, names)
  {
    hide ApplyUnwatchAll, UnwatchEach, Listing;
    AllWatches(st, s, names);
    AllGuards(st, s, names);
    AllMeas(st, s, names);
    UnwatchEachFrame(st, s, names);
  }

  /** Who is connected plays no part. */
  lemma {:induction false} UnwatchEachLive(st: State, s: Session, names: seq<Name>, live: set<Session>)
    ensures UnwatchEach(st.(live := live), s, names) == UnwatchEach(st, s, names).(live := live)
    decreases |names|
  {
    hide TasksAt, InvalidateSpec;
    if names != [] {
      UnwatchEachLive(if OwnedBy(st, names[0], s) then UnwatchOne(st, names[0]) else st, s, names[1..], live);
    }
  }

  // ---------------------------------------------------------------- the shared objects together

  /** The state of the registry, the guard table and the store taken together. */
  function Join(r: State, w: State, meas: map<string, Meas>, db: Db): State {
    r.(watches := w.watches, guards := w.guards, nextTask := w.nextTask, meas := meas, db := db)
  }

  lemma JoinRelease(r: State, w: State, meas: map<string, Meas>, db: Db, n: Name, safe: bool)
    requires n in r.registry && r.registry[n] in r.objs
    ensures Release(Join(r, w, meas, db), n, safe)
            == Join(Release(r, n, safe), StopGuards(w, n), InvalidateSpec(meas, n), db)
  {
    hide InvalidateSpec, TasksAt;
  }

  lemma JoinStop(r: State, w: State, meas: map<string, Meas>, db: Db, n: Name)
    ensures StopGuards(Join(r, w, meas, db), n) == Join(r, StopGuards(w, n), meas, db)
    ensures UnwatchOne(Join(r, w, meas, db), n) == Join(r, StopGuards(w, n), InvalidateSpec(meas, n), db)
  {
    hide InvalidateSpec, TasksAt;
  }

  lemma JoinStopOne(r: State, w: State, meas: map<string, Meas>, db: Db, n: Name, q: string)
    ensures StopGuard(Join(r, w, meas, db), n, q) == Join(r, StopGuard(w, n, q), meas, db)
  {
  }

  lemma JoinOwned(r: State, w: State, meas: map<string, Meas>, db: Db, s: Session, n: Name)
    ensures OwnedBy(Join(r, w, meas, db), n, s) <==> OwnedBy(r, n, s)
    ensures OwnedBy(r, n, s) ==> n in r.registry && r.registry[n] in r.objs
    ensures Registry.UnlockReply(Join(r, w, meas, db), s, n) == Registry.UnlockReply(r, s, n)
    ensures Registry.UnlockReply(r, s, n) == Registry.Done <==> OwnedBy(r, n, s)
  {
  }

  lemma JoinUse(r: State, w: State, meas: map<string, Meas>, db: Db, s: Session, n: Name)
    ensures Registry.UseReply(Join(r, w, meas, db), s, n) == Registry.UseReply(r, s, n)
  {
  }

  lemma IdleNotOwned(st: State, n: Name, s: Session)
    ensures OwnedBy(st, n, s) ==>
              n in st.registry && st.registry[n] in st.objs && st.objs[st.registry[n]].owner == Some(s)
  {
  }

  /** What the replies to a use say about the state. */
  lemma UseReplies(st: State, s: Session, n: Name)
    ensures Registry.UseReply(st, s, n) == Registry.NotFound <==> n !in st.registry || st.registry[n] !in st.objs
    ensures Registry.UseReply(st, s, n) in {Registry.Done, Registry.NotInit, Registry.InFault} ==>
              OwnedBy(st, n, s)
              && (Registry.UseReply(st, s, n) == Registry.Done <==> st.objs[st.registry[n]].status == Ready)
    ensures OwnedBy(st, n, s) && st.objs[st.registry[n]].status != Idle ==>
              Registry.UseReply(st, s, n) in {Registry.Done, Registry.NotInit, Registry.InFault}
  {
  }

  // ---------------------------------------------------------------- the handlers

  class Server {
    const registry: Registry.InstrumentRegistry
    const watches: Watching.WatchManager
    const store: KeyValueStore

    constructor ()
      ensures Valid() && View() == INIT
    {
      registry := new Registry.InstrumentRegistry();
      watches := new Watching.WatchManager();
      store := new KeyValueStore();
    }

    ghost predicate Valid()
      reads this, registry, registry.Owned()
    {
      registry.Valid()
    }

    ghost function View(): State
      reads this, registry, registry.Owned(), watches, store
    {
      Join(registry.View(), watches.View(), store.meas, store.Contents())
    }

    method UnlockWithMeas(n: Name, s: Session, safe: bool) returns (reply: Registry.Reply)
      requires Valid()
      modifies registry.Owned(), watches, store
      ensures Valid() && registry.Owned() == old(registry.Owned())
      ensures View() == if OwnedBy(old(View()), n, s) then Release(old(View()), n, safe) else StopGuards(old(View()), n)
      ensures reply == Registry.UnlockReply(old(View()), s, n)
    {
      hide Join, Release, StopGuards, InvalidateSpec, OwnedBy, Registry.UnlockReply,
        Registry.InstrumentRegistry.View, Registry.InstrumentRegistry.Valid, Watching.WatchManager.View,
        KeyValueStore.Contents;
      ghost var r, w, meas, db := registry.View(), watches.View(), store.meas, store.Contents();
      JoinOwned(r, w, meas, db, s, n);
      JoinStop(r, w, meas, db, n);
      if OwnedBy(r, n, s) {
        JoinRelease(r, w, meas, db, n, safe);
      }
      watches.StopInstrument(n);
      reply := registry.Unlock(n, s, safe);
      if reply == Registry.Done {
        var changed := store.InvalidateMeas(n);
      }
    }

    /** IUNLOCK with a list of names. */
    method HandleUnlock(names: seq<Name>, s: Session, safe: seq<bool>) returns (reply: Registry.Reply)
      requires Valid() && |safe| == |names|
      modifies registry.Owned(), watches, store
      ensures Valid() && registry.Owned() == old(registry.Owned())
      ensures View() == UnlockEach(old(View()), s, names, safe)
      ensures reply == UnlockEachReply(old(View()), s, names, safe)
    {
      hide Valid, View, Release, StopGuards, OwnedBy, Registry.UnlockReply;
      reply := Registry.Done;
      for i := 0 to |names|
        invariant Valid() && registry.Owned() == old(registry.Owned())
        invariant UnlockEach(View(), s, names[i..], safe[i..]) == UnlockEach(old(View()), s, names, safe)
        invariant UnlockEachReply(View(), s, names[i..], safe[i..]) == UnlockEachReply(old(View()), s, names, safe)
        invariant reply == Registry.Done
      {
        ReplyIsOwned(View(), s, names[i]);
        assert names[i..][1..] == names[i + 1..] && safe[i..][1..] == safe[i + 1..];
        reply := UnlockWithMeas(names[i], s, safe[i]);
        if reply != Registry.Done {
          return;
        }
      }
    }

    /** The names a listing gave, released where `s` owns them: IUNLOCK ALL and the cleanup loop. */
    method ReleaseAll(names: seq<Name>, s: Session, safe: seq<bool>)
      requires Valid() && |safe| == |names|
      modifies registry.Owned(), watches, store
      ensures Valid() && registry.Owned() == old(registry.Owned())
      ensures View() == CloseEach(old(View()), s, names, safe)
    {
      hide Valid, View, Release, StopGuards, OwnedBy, Registry.UnlockReply;
      for i := 0 to |names|
        invariant Valid() && registry.Owned() == old(registry.Owned())
        invariant CloseEach(View(), s, names[i..], safe[i..]) == CloseEach(old(View()), s, names, safe)
      {
        assert names[i..][1..] == names[i + 1..] && safe[i..][1..] == safe[i + 1..];
        var known, owner := OwnerOf(names[i]);
        if !known {
          return;
        }
        if owner == Some(s) {
          var reply := UnlockWithMeas(names[i], s, safe[i]);
        }
      }
    }

    lemma Known(n: Name)
      requires Valid()
      ensures n in View().registry ==> View().registry[n] in View().objs
      ensures n in View().registry && View().objs[View().registry[n]].status == Idle ==>
                View().objs[View().registry[n]].owner == None
    {
    }

    /** IREAD; the reply tells which error the client gets, or gives it the value that was read. */
    method HandleRead(args: seq<string>, marked: bool, s: Session, outcome: Outcome)
      returns (reply: Registry.Reply, value: Option<string>)
      requires Valid()
      modifies registry.Owned(), store
      ensures Valid() && View() == ReadSpec(old(View()), s, args, marked, outcome)
      ensures reply == ReadReply(old(View()), s, args, outcome)
      ensures value == if reply == Registry.Done then UseValue(outcome) else None
    {
      value := None;
      hide View, CallSpec, OwnedBy, Registry.UseReply, ErrorStatus, NotFoundText;
      var target := ReadTarget(args);
      hide ReadTarget;
      if target.None? {
        return Registry.BadArguments, None;
      }
      var (n, r) := target.value;
      reply := CheckUse(n, s);
      UseReplies(View(), s, n);
      Known(n);
      IdleNotOwned(View(), n, s);
      if reply == Registry.Done || reply == Registry.NotInit || reply == Registry.InFault {
        var got := CallAndNote(n, if marked then Some((n, r)) else None, outcome);
        if reply == Registry.Done {
          value := got;
          if got.None? {
            reply := Registry.DriverFailed;
          }
        }
      } else if reply == Registry.NotFound {
        Note(if marked then Some((n, r)) else None, None, ErrorStatus(NotFoundText(n)));
      }
    }

    method CheckUse(n: Name, s: Session) returns (reply: Registry.Reply)
      requires Valid()
      ensures reply == Registry.UseReply(View(), s, n)
    {
      hide Registry.UseReply, Registry.InstrumentRegistry.View, Registry.InstrumentRegistry.Valid;
      reply := registry.CheckUse(n, s);
      JoinUse(registry.View(), watches.View(), store.meas, store.Contents(), s, n);
    }

    /** `_write_meas`, if the MEAS flag was given. */
    method Note(mark: Option<(Name, string)>, value: Option<string>, status: string)
      requires Valid()
      modifies store
      ensures Valid() && View() == old(View()).(meas := NoteMark(old(View()).meas, mark, value, status))
    {
      if mark.Some? {
        store.WriteMeas(mark.value.0, mark.value.1, value, status);
      }
    }

    /** The call of an owned instrument, if it is READY: what it gave, and the status to note. */
    method CallOwned(n: Name, outcome: Outcome) returns (value: Option<string>, status: string)
      requires Valid() && n in View().registry && View().registry[n] in View().objs
      modifies registry.Owned()
      ensures Valid()
      ensures var o := old(View()).registry[n];
              && View() == old(View()).(objs := AfterCall(old(View()).objs, o, outcome))
              && value == CallValue(old(View()).objs[o], outcome) && status == CallStatus(old(View()).objs[o], outcome)
    {
      registry.Facts(n);
      hide AfterUse, UseStatus, UseValue, ErrorStatus, NotReadyText, Registry.InstrumentRegistry.View,
        Registry.InstrumentRegistry.Valid;
      var inst := registry.instruments[n];
      if inst.status != Ready {
        return None, ErrorStatus(NotReadyText(inst.Value()));
      }
      registry.CallReturned(inst, registry.ids[n], outcome);
      return UseValue(outcome), UseStatus(outcome);
    }

    /** The call and what is noted about it. */
    method CallAndNote(n: Name, mark: Option<(Name, string)>, outcome: Outcome) returns (value: Option<string>)
      requires Valid() && n in View().registry && View().registry[n] in View().objs
      modifies registry.Owned(), store
      ensures Valid() && View() == CallSpec(old(View()), old(View()).registry[n], mark, outcome)
      ensures value == CallValue(old(View()).objs[old(View()).registry[n]], outcome)
    {
      hide View, Valid, AfterCall, CallValue, CallStatus, NoteMark;
      var status: string;
      value, status := CallOwned(n, outcome);
      Note(mark, value, status);
    }

    /**
     * One turn of `_watch_loop` after its sleep; `number` is the value read as a float, `loss` the
     * place where the event bus raises, if it does.
     */
    method WatchTurn(t: TaskId, inst: Registry.Instrument, outcome: Outcome, number: Option<real>, loss: Loss)
      requires Valid() && t in watches.guards
      requires watches.guards[t].obj < |registry.objects| && registry.objects[watches.guards[t].obj] == inst
      modifies registry.Owned(), watches, store
      ensures Valid() && View() == TurnSpec(old(View()), t, outcome, number, loss)
    {
      var g := watches.guards[t];
      registry.ObjectFacts(g.obj);
      assert View().objs[g.obj] == inst.Value() && View().guards == watches.guards;
      hide View, Valid, ReadyTurn;
      if inst.status == Ready {
        ReadOnce(t, g, inst, outcome, number, loss);
      }
    }

    /** The turn goes on with a READY instrument. */
    method ReadOnce(t: TaskId, g: Guard, inst: Registry.Instrument, outcome: Outcome, number: Option<real>, loss: Loss)
      requires Valid() && g.obj < |registry.objects| && registry.objects[g.obj] == inst
      modifies registry.Owned(), watches, store
      ensures Valid() && View() == ReadyTurn(old(View()), t, g, outcome, number, loss)
    {
      hide View, Valid, Noted, Tripped, Violates;
      if outcome.Crashed? {
        EndTask(t);
        return;
      }
      NoteRead(g, inst, outcome);
      if loss == LostNoting {
        EndTask(t);
      } else if outcome.Returned? && Violates(number, g.low, g.high) {
        Trip(g, inst, outcome.text);
        if loss == LostTripping {
          EndTask(t);
        }
      }
    }

    method EndTask(t: TaskId)
      requires Valid()
      modifies watches
      ensures Valid() && registry.Owned() == old(registry.Owned()) && View() == EndedIf(old(View()), t, true)
    {
      watches.Cancel(t);
    }

    /** What the driver gave goes into the store, ERROR in place of a DriverError. */
    method NoteRead(g: Guard, inst: Registry.Instrument, outcome: Outcome)
      requires Valid() && g.obj < |registry.objects| && registry.objects[g.obj] == inst && !outcome.Crashed?
      modifies registry.Owned(), store
      ensures Valid() && registry.objects == old(registry.objects) && registry.Owned() == old(registry.Owned())
      ensures View() == Noted(old(View()), g, outcome)
    {
      hide WriteMeasSpec, AfterFailure, Registry.InstrumentRegistry.View, Registry.InstrumentRegistry.Valid,
        KeyValueStore.Contents;
      assert (store as object) !in registry.Owned();
      registry.CallEnded(inst, g.obj, outcome);
      if outcome.Returned? {
        store.WriteMeas(g.name, g.resource, Some(outcome.text), "OK");
      } else {
        store.WriteMeas(g.name, g.resource, None, "ERROR");
      }
    }

    /** `_guard_trip`. */
    method Trip(g: Guard, inst: Registry.Instrument, text: string)
      requires Valid() && g.obj < |registry.objects| && registry.objects[g.obj] == inst
      modifies registry.Owned(), store
      ensures Valid() && registry.Owned() == old(registry.Owned()) && View() == Tripped(old(View()), g, text)
    {
      hide WriteMeasSpec, WithStatus, Registry.InstrumentRegistry.View, Registry.InstrumentRegistry.Valid,
        KeyValueStore.Contents;
      assert (store as object) !in registry.Owned();
      registry.MarkFault(inst, g.obj);
      store.WriteMeas(g.name, g.resource, Some(text), "GUARD_FAULT");
    }

    /** IUNWATCH of one resource; its entry becomes STALE. */
    method HandleUnwatch(n: Name, q: string) returns (found: bool)
      requires Valid()
      modifies watches, store
      ensures Valid() && (found <==> n in old(watches.watches) && q in old(watches.watches)[n])
      ensures View() == if n in old(watches.watches) && q in old(watches.watches)[n]
                        then StopGuard(old(View()), n, q).(meas := MarkStale(old(store.meas), n, q)) else old(View())
    {
      hide StopGuard, MeasKey, Registry.InstrumentRegistry.View, Registry.InstrumentRegistry.Valid,
        KeyValueStore.Contents;
      JoinStopOne(registry.View(), watches.View(), store.meas, store.Contents(), n, q);
      assert (watches as object) !in registry.Owned() && (store as object) !in registry.Owned();
      found := watches.Stop(n, q);
      if found && MeasKey(n, q) in store.meas {
        store.WriteMeas(n, q, store.meas[MeasKey(n, q)].value, STALE);
      }
    }

    method OwnerOf(n: Name) returns (known: bool, owner: Option<Session>)
      requires Valid()
      ensures known <==> n in View().registry
      ensures forall s: Session :: OwnedBy(View(), n, s) <==> known && owner == Some(s)
    {
      known, owner := registry.Owner(n);
    }

    /** IUNWATCH ALL. */
    method HandleUnwatchAll(names: seq<Name>, s: Session)
      requires Valid() && Listing(View(), names)
      modifies watches, store
      ensures Valid() && View().(live := {s}) == ApplyUnwatchAll(old(View()).(live := {s}), s)
    {
      ghost var before := View();
      assert before.command.None? && Listing(before.(live := {s}), names);
      hide Valid, View, ApplyUnwatchAll, UnwatchEach, Listing;
      UnwatchEachIsAll(before.(live := {s}), s, names);
      UnwatchEachLive(before, s, names, {s});
      UnwatchOwned(names, s);
    }

    method UnwatchOwned(names: seq<Name>, s: Session)
      requires Valid()
      modifies watches, store
      ensures Valid() && View() == UnwatchEach(old(View()), s, names)
    {
      hide Valid, View, OwnedBy, UnwatchOne;
      for i := 0 to |names|
        invariant Valid() && registry.Owned() == old(registry.Owned())
        invariant UnwatchEach(View(), s, names[i..]) == UnwatchEach(old(View()), s, names)
      {
        assert names[i..][1..] == names[i + 1..];
        var known, owner := OwnerOf(names[i]);
        if known && owner == Some(s) {
          StopAndInvalidate(names[i]);
        }
      }
    }

    method StopAndInvalidate(n: Name)
      requires Valid()
      modifies watches, store
      ensures Valid() && registry.Owned() == old(registry.Owned()) && View() == UnwatchOne(old(View()), n)
    {
      hide Join, StopGuards, UnwatchOne, InvalidateSpec, Registry.InstrumentRegistry.View,
        Registry.InstrumentRegistry.Valid, Watching.WatchManager.View, KeyValueStore.Contents;
      JoinStop(registry.View(), watches.View(), store.meas, store.Contents(), n);
      assert (watches as object) !in registry.Owned() && (store as object) !in registry.Owned();
      watches.StopInstrument(n);
      var changed := store.InvalidateMeas(n);
    }

    /** `close`: the instruments, then the keys. */
    method Close(names: seq<Name>, s: Session, safe: seq<bool>)
      requires Valid() && |safe| == |names|
      modifies registry.Owned(), watches, store
      ensures Valid()
      ensures var b := CloseEach(old(View()), s, names, safe); View() == b.(db := ReleaseSpec(b.db, s))
    {
      ReleaseAll(names, s, safe);
      hide Registry.InstrumentRegistry.View, Registry.InstrumentRegistry.Valid, Watching.WatchManager.View,
        KeyValueStore.Contents, ReleaseSpec, CloseEach;
      store.ReleaseOwner(s);
    }
  }

  lemma ReplyIsOwned(st: State, s: Session, n: Name)
    ensures Registry.UnlockReply(st, s, n) == Registry.Done <==> OwnedBy(st, n, s)
  {
  }
}
