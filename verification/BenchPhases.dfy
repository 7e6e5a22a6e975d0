/**
 * How a command, a guard's loop and a health task go on: which step ends a command, which events are
 * written, and what an event that raises ends.
 */
module BenchPhases {
  import opened Wrappers
  import opened Store
  import opened Bench
  import opened BenchFrames
  import opened BenchEvents
  import opened BenchCalls
  import Events

  // ---------------------------------------------------------------- commands

  /** The list form of IUNLOCK ends at the first name that is not the session's, ALL at one that is gone. */
  lemma UnlockGoesOn(st: State, s: Session, names: seq<Name>, all: bool, safe: bool)
    requires st.command == Some(Unlocking(s, names, all))
    ensures ApplyUnlockNext(st, safe).command ==
              if names != [] && (if all then names[0] in st.registry else OwnedBy(st, names[0], s))
              then Some(Unlocking(s, names[1..], all)) else None
    ensures ApplyUnlockRaises(st) == if all then st else st.(command := None)
  {
    hide Release, StopGuards;
  }

  /** IUNLOCK ALL begins with every name that is the session's. */
  lemma UnlockAllCovers(st: State, s: Session, names: seq<Name>)
    requires ApplyBeginUnlock(st, s, names, true) != st
    ensures CanStart(st, s) && forall n :: OwnedBy(st, n, s) ==> n in names
    ensures ApplyBeginUnlock(st, s, names, true).command == Some(Unlocking(s, names, true))
  {
  }

  /** A driver call that fails ends its command; one of IALIGN that succeeds leads to the next name. */
  lemma FailureEnds(st: State, outcome: Outcome, found: seq<string>)
    requires st.command.Some?
    ensures st.command.value.Initing? && !outcome.Returned? ==> ApplyInitReturn(st, outcome, found).command == None
    ensures st.command.value.Aligning? && st.command.value.current.Some? ==>
              ApplyAlignReturn(st, outcome, found).command ==
                if outcome.Returned? then Some(Aligning(st.command.value.session, st.command.value.names, None))
                else None
    ensures st.command.value.Pinging? ==> ApplyPingReturn(st, outcome).command == None
  {
    hide AfterFailure, MarkReady;
  }

  /** IALIGN goes through its names as long as they are LOCKED, and ends at the first that is not. */
  lemma AlignGoesOn(st: State, s: Session, names: seq<Name>, o: ObjId)
    requires st.command == Some(Aligning(s, names, None))
    ensures names == [] || names[0] !in st.registry ==> ApplyAlignNext(st).command == None
    ensures names != [] && names[0] in st.registry && st.registry[names[0]] == o ==>
              ApplyAlignNext(st).command ==
                if HasStatus(st, o, Locked) then Some(Aligning(s, names[1..], Some(o))) else None
  {
  }

  lemma OneLess(s: seq<ObjId>, i: nat)
    requires i < |s|
    ensures multiset(RemoveAt(s, i)) + multiset{s[i]} == multiset(s)
  {
    assert s == s[..i] + [s[i]] + s[i + 1..];
  }

  /** A call that is started leaves the list of those to come, and runs if its instrument is READY. */
  lemma UseStarts(st: State, s: Session, pending: seq<ObjId>, running: seq<ObjId>, mark: Option<(Name, string)>,
          index: nat)
    requires st.command == Some(Using(s, pending, running, mark)) && index < |pending|
    ensures exists rest ::
              multiset(rest) + multiset{pending[index]} == multiset(pending)
              && ApplyUseStart(st, index).command ==
                   Some(Using(s, rest, running + if HasStatus(st, pending[index], Ready) then [pending[index]] else [],
                              mark))
  {
    hide NoteMark, ErrorStatus, NotReadyText, RemoveAt;
    OneLess(pending, index);
    assert running + [] == running;
    assert ApplyUseStart(st, index).command.value.pending == RemoveAt(pending, index);
  }

  /** A call that returns leaves the list of those that run, and no other does. */
  lemma UseReturns(st: State, s: Session, pending: seq<ObjId>, running: seq<ObjId>, mark: Option<(Name, string)>,
          index: nat, outcome: Outcome)
    requires st.command == Some(Using(s, pending, running, mark)) && index < |running|
    ensures exists rest ::
              multiset(rest) + multiset{running[index]} == multiset(running)
              && ApplyUseReturn(st, index, outcome).command == Some(Using(s, pending, rest, mark))
  {
    hide NoteMark, AfterUse, UseValue, UseStatus, RemoveAt;
    OneLess(running, index);
    assert ApplyUseReturn(st, index, outcome).command.value.running == RemoveAt(running, index);
  }

  /** A use ends when all its calls have been started and have ended. */
  lemma UseEnds(st: State, s: Session, pending: seq<ObjId>, running: seq<ObjId>, mark: Option<(Name, string)>)
    requires st.command == Some(Using(s, pending, running, mark))
    ensures ApplyUseDone(st).command == if pending == [] && running == [] then None else st.command
  {
  }

  // ---------------------------------------------------------------- events

  /** Somebody is subscribed to a channel that hears the event. */
  ghost predicate Heard(subs: set<(Session, string)>, base: string, key: Option<string>) {
    exists sub :: sub in subs && Events.Hears(sub.1, base, key)
  }

  /** The subscriptions to the channel and to its filtered forms. */
  ghost function Under(subs: set<(Session, string)>, base: string): set<(Session, string)> {
    set sub | sub in subs && (sub.1 == base || base + ":" <= sub.1)
  }

  lemma AudienceIs(subs: set<(Session, string)>, base: string)
    requires base in Events.VALID_CHANNELS
    ensures Audience(subs, base) == |Under(subs, base)|
  {
    hide Events.ParseChannel;
    forall sub | sub in subs ensures Events.ParseChannel(sub.1).0 == base <==> sub.1 == base || base + ":" <= sub.1 {
      Events.TryFits(base, sub.1);
    }
    assert (set sub | sub in subs && Events.ParseChannel(sub.1).0 == base) == Under(subs, base);
  }

  /** The phase in which an event is written, for each of the two channels of a guard. */
  lemma Channels(subs: set<(Session, string)>, n: Name, r: string)
    ensures Awaits(subs, "meas", Some(n + ":" + r)) <==> Heard(subs, "meas", Some(n + ":" + r))
    ensures Awaits(subs, "instrument", None) <==> Heard(subs, "instrument", None)
    ensures Audience(subs, "meas") == |Under(subs, "meas")|
    ensures Audience(subs, "instrument") == |Under(subs, "instrument")|
  {
    hide Events.Hears, Awaits, Audience;
    AwaitsIff(subs, "meas", Some(n + ":" + r));
    AwaitsIff(subs, "instrument", None);
    AudienceIs(subs, "meas");
    AudienceIs(subs, "instrument");
  }

  /** Task `t` is alive and goes on in `phase`. */
  predicate GoesOn(st: State, t: TaskId, phase: Phase) {
    t in st.guards && st.guards[t].phase == phase
  }

  /** The instrument event of a trip, if anybody hears it. */
  ghost function Announcement(st: State): Phase {
    if Heard(st.subs, "instrument", None) then Announcing(|Under(st.subs, "instrument")|) else Sleeping
  }

  /** What follows a read that came back: its event if anybody hears it, and then the trip if it is due. */
  lemma AfterRead(st: State, t: TaskId, g: Guard, outcome: Outcome, number: Option<real>)
    requires t in st.guards && st.guards[t] == g && g.phase.Reading? && !outcome.Crashed?
    ensures var verdict := if outcome.Returned? && Violates(number, g.low, g.high) then Some(outcome.text) else None;
            GoesOn(ApplyGuardReturn(st, t, outcome, number), t,
              if Heard(st.subs, "meas", Some(g.name + ":" + g.resource)) then Noting(|Under(st.subs, "meas")|, verdict)
              else if verdict.Some? then Tripping(verdict.value) else Sleeping)
  {
    hide Heard, Under, Violates, WriteMeasSpec, AfterFailure, Awaits, Audience;
    Channels(st.subs, g.name, g.resource);
  }

  /** What follows a trip: its measurement event, then its instrument event, each if anybody hears it. */
  lemma AfterTrip(st: State, t: TaskId, g: Guard)
    requires t in st.guards && st.guards[t] == g && g.phase.Tripping?
    ensures GoesOn(ApplyGuardTrip(st, t), t,
              if Heard(st.subs, "meas", Some(g.name + ":" + g.resource)) then NotingTrip(|Under(st.subs, "meas")|)
              else Announcement(st))
  {
    hide Heard, Under, WriteMeasSpec, WithStatus, Awaits, Audience;
    Channels(st.subs, g.name, g.resource);
  }

  /**
   * An event that was being written: if the number of subscriptions to its channel has changed, the task has
   * ended; otherwise the loop goes on with what comes next.
   */
  lemma AfterEvent(st: State, t: TaskId, g: Guard)
    requires t in st.guards && st.guards[t] == g
    ensures var b := ApplyGuardPublish(st, t);
            match g.phase
            case Noting(size, verdict) =>
              if |Under(st.subs, "meas")| != size then t !in b.guards
              else GoesOn(b, t, if verdict.Some? then Tripping(verdict.value) else Sleeping)
            case NotingTrip(size) =>
              if |Under(st.subs, "meas")| != size then t !in b.guards else GoesOn(b, t, Announcement(st))
            case Announcing(size) =>
              if |Under(st.subs, "instrument")| != size then t !in b.guards else GoesOn(b, t, Sleeping)
            case other => GoesOn(b, t, other)
  {
    hide Heard, Under, Awaits, Audience;
    Channels(st.subs, g.name, g.resource);
  }

  // ---------------------------------------------------------------- health tasks

  /** The health task of `n` goes on in `phase`. */
  predicate HealthIn(st: State, n: Name, phase: HealthPhase) {
    n in st.health && st.health[n].phase == phase
  }

  /**
   * After a ping the task waits again; it first writes an event if this is the third failure in a row, not a
   * timeout, of an instrument that was not UNRESPONSIVE yet, and anybody hears it.
   */
  lemma AfterPingPhase(st: State, n: Name, o: ObjId, outcome: Outcome)
    requires Answers(st, n, o)
    ensures var inst := st.objs[o];
            var third := (outcome.Refused? || outcome.Crashed?) && inst.failures >= 2 && inst.status != Unresponsive;
            HealthIn(ApplyHealthReturn(st, n, outcome), n,
              if third && Heard(st.subs, "instrument", None) then Declaring(|Under(st.subs, "instrument")|)
              else Waiting)
  {
    hide Heard, Under, Awaits, Audience;
    Channels(st.subs, "", "");
  }

  /** When the event is written the task waits again, unless the number of subscriptions has changed. */
  lemma AfterHealthEvent(st: State, n: Name, size: nat)
    requires HealthIn(st, n, Declaring(size))
    ensures var b := ApplyHealthPublish(st, n);
            if |Under(st.subs, "instrument")| != size then n !in b.health else HealthIn(b, n, Waiting)
  {
    hide Under, Audience;
    Channels(st.subs, "", "");
  }
}
