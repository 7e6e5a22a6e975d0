/**
 * The instrument registry as the mutable object it is (testcore/instruments.py): `Instrument`
 * records updated in place and a dictionary of them. Every method is proved against the functions
 * of `Bench` on the abstract state `View()`, in which an instrument is known by the position it
 * was added at.
 */
module Registry {
  import opened Wrappers
  import opened Store
  import Bench

  class Instrument {
    const name: string
    var status: Bench.Status
    var owner: Option<Session>
    var resources: seq<string>
    var failures: nat

    constructor (name: string)
      ensures Value() == Bench.Instrument(name, Bench.Idle, None, [], 0)
    {
      this.name := name;
      status, owner, resources, failures := Bench.Idle, None, [], 0;
    }

    function Value(): Bench.Instrument
      reads this
    {
      Bench.Instrument(name, status, owner, resources, failures)
    }

    /** What the health loop and the watchdog do with the end of a ping. */
    method Pinged(outcome: Bench.Outcome)
      modifies this
      ensures Value() == Bench.AfterPing(old(Value()), outcome)
      ensures owner == old(owner) && (status == Bench.Idle ==> old(status) == Bench.Idle)
    {
      if outcome.TimedOut? {
        status := Bench.Unresponsive;
      }
      failures := if outcome.Returned? then 0 else failures + 1;
      if !outcome.Returned? && failures >= 3 {
        status := Bench.Unresponsive;
      }
    }
  }

  /** The exceptions a registry method raises. */
  datatype Reply = Done | NotFound | NotLocked | OwnedByOther(session: Session) | NotIdle | WrongState | NoConnection
    | NotInit | InFault | DriverFailed | BadArguments

  /** Why the instrument `n` cannot be locked by `s`. */
  function LockRefusal(st: Bench.State, s: Session, n: Bench.Name): Reply {
    if n !in st.registry || st.registry[n] !in st.objs then NotFound
    else if st.objs[st.registry[n]].owner.Some? then OwnedByOther(st.objs[st.registry[n]].owner.value)
    else NotIdle
  }

  function UnlockReply(st: Bench.State, s: Session, n: Bench.Name): Reply {
    if n !in st.registry || st.registry[n] !in st.objs then NotFound
    else if st.objs[st.registry[n]].owner.None? then NotLocked
    else if st.objs[st.registry[n]].owner != Some(s) then OwnedByOther(st.objs[st.registry[n]].owner.value)
    else Done
  }

  /** Whether session `s` may start a driver call on `n`, and why not. */
  function UseReply(st: Bench.State, s: Session, n: Bench.Name): Reply {
    if n !in st.registry || st.registry[n] !in st.objs then NotFound
    else
      var inst := st.objs[st.registry[n]];
      if inst.owner != Some(s) then (if inst.owner.None? then NotLocked else OwnedByOther(inst.owner.value))
      else
        match inst.status
        case Idle => NotLocked
        case Locked => NotInit
        case Ready => Done
        case Unresponsive => InFault
        case Fault => InFault
  }

  /** The reasons by the state of instrument `o`, registered as `n`, and for a name that is not registered. */
  lemma RepliesTell(st: Bench.State, s: Session, n: Bench.Name, o: Bench.ObjId)
    requires o in st.objs
    ensures n !in st.registry ==>
              LockRefusal(st, s, n) == NotFound && UnlockReply(st, s, n) == NotFound && UseReply(st, s, n) == NotFound
    ensures n in st.registry && st.registry[n] == o && st.objs[o].owner == None ==>
              LockRefusal(st, s, n) == NotIdle && UnlockReply(st, s, n) == NotLocked && UseReply(st, s, n) == NotLocked
    ensures forall u :: n in st.registry && st.registry[n] == o && st.objs[o].owner == Some(u) && u != s ==>
              && LockRefusal(st, s, n) == OwnedByOther(u) && UnlockReply(st, s, n) == OwnedByOther(u)
              && UseReply(st, s, n) == OwnedByOther(u)
    ensures n in st.registry && st.registry[n] == o && st.objs[o].owner == Some(s) ==>
              && UnlockReply(st, s, n) == Done
              && (st.objs[o].status == Bench.Locked ==> UseReply(st, s, n) == NotInit)
              && (st.objs[o].status == Bench.Ready ==> UseReply(st, s, n) == Done)
              && (Bench.Broken(st.objs[o].status) ==> UseReply(st, s, n) == InFault)
  {
  }

  /** Without guards and measurements a release is a change of the instrument alone. */
  lemma ReleaseAlone(st: Bench.State, n: Bench.Name, safe: bool)
    requires n in st.registry && st.registry[n] in st.objs
    requires st.watches == map[] && st.guards == map[] && st.meas == map[]
    ensures Bench.Release(st, n, safe) ==
              st.(objs := st.objs[st.registry[n] := st.objs[st.registry[n]].(
                    status := if safe then Bench.Idle else Bench.Fault, owner := None, resources := [])])
  {
    assert InvalidateSpec(map[], n) == map[];
  }

  class InstrumentRegistry {
    var instruments: map<Bench.Name, Instrument>
    /** Every instrument that was ever added, in order, and the positions of the registered ones. */
    ghost var objects: seq<Instrument>
    ghost var ids: map<Bench.Name, Bench.ObjId>

    constructor ()
      ensures Valid() && fresh(Owned()) && View() == Bench.INIT
    {
      instruments, objects, ids := map[], [], map[];
      new;
      assert View().objs == map[];
    }

    ghost function Owned(): set<object>
      reads this
    {
      set inst | inst in objects
    }

    ghost predicate Valid()
      reads this, Owned()
    {
      && (forall i, j :: 0 <= i < j < |objects| ==> objects[i] != objects[j])
      && ids.Keys == instruments.Keys
      && (forall n :: n in ids ==> ids[n] < |objects| && objects[ids[n]] == instruments[n])
      && forall i :: 0 <= i < |objects| && objects[i].status == Bench.Idle ==> objects[i].owner == None
    }

    ghost function Objects(): map<Bench.ObjId, Bench.Instrument>
      reads this, Owned()
    {
      map o: Bench.ObjId | 0 <= o < |objects| :: objects[o].Value()
    }

    ghost function View(): Bench.State
      reads this, Owned()
    {
      Bench.INIT.(objs := Objects(), registry := ids, nextObj := |objects|)
    }

    /** The object under a name and its place in the view. */
    lemma Facts(n: Bench.Name)
      requires Valid()
      ensures n in instruments <==> n in View().registry
      ensures n in instruments ==>
                && n in ids && View().registry[n] == ids[n] && ids[n] < |objects| && objects[ids[n]] == instruments[n]
                && instruments[n] in Owned() && ids[n] in View().objs && View().objs[ids[n]] == instruments[n].Value()
    {
    }

    lemma ObjectFacts(o: Bench.ObjId)
      requires o < |objects|
      ensures o in View().objs && View().objs[o] == objects[o].Value()
    {
    }

    /** An unlocked instrument becomes the session's own. */
    method SetLocked(inst: Instrument, ghost o: Bench.ObjId, s: Session)
      requires Valid() && o < |objects| && objects[o] == inst
      modifies inst
      ensures Valid() && o in old(View()).objs
      ensures View() == old(View()).(objs :=
                old(View()).objs[o := old(View()).objs[o].(status := Bench.Locked, owner := Some(s))])
    {
      inst.status := Bench.Locked;
      inst.owner := Some(s);
      assert Objects() == old(Objects())[o := inst.Value()];
    }

    method SetReleased(inst: Instrument, ghost o: Bench.ObjId, safe: bool)
      requires Valid() && o < |objects| && objects[o] == inst
      modifies inst
      ensures Valid() && o in old(View()).objs
      ensures View() == old(View()).(objs := old(View()).objs[o := old(View()).objs[o].(
                status := if safe then Bench.Idle else Bench.Fault, owner := None, resources := [])])
    {
      inst.status := if safe then Bench.Idle else Bench.Fault;
      inst.owner := None;
      inst.resources := [];
      assert Objects() == old(Objects())[o := inst.Value()];
    }

    method SetReset(inst: Instrument, ghost o: Bench.ObjId)
      requires Valid() && o < |objects| && objects[o] == inst
      modifies inst
      ensures Valid() && o in old(View()).objs
      ensures View() == old(View()).(objs :=
                old(View()).objs[o := old(View()).objs[o].(status := Bench.Locked, resources := [])])
    {
      inst.status := Bench.Locked;
      inst.resources := [];
      assert Objects() == old(Objects())[o := inst.Value()];
    }

    /** IADD, when the driver connects. */
    method Add(n: Bench.Name, connects: bool) returns (ok: bool)
      requires Valid()
      modifies this
      ensures Valid() && fresh(Owned() - old(Owned()))
      ensures View() ==
                if n in old(View()).registry || !connects then old(View()) else Bench.AddOne(old(View()), n, false)
      ensures ok <==> n !in old(instruments) && connects
    {
      Facts(n);
      hide Valid, View;
      if n in instruments || !connects {
        return false;
      }
      var inst := new Instrument(n);
      Register(n, inst);
      ok := true;
    }

    method Register(n: Bench.Name, inst: Instrument)
      requires Valid() && inst !in objects && inst.Value() == Bench.Instrument(n, Bench.Idle, None, [], 0)
      modifies this
      ensures Valid() && objects == old(objects) + [inst] && instruments == old(instruments)[n := inst]
      ensures View() == Bench.AddOne(old(View()), n, false)
    {
      instruments := instruments[n := inst];
      ids := ids[n := |objects|];
      objects := objects + [inst];
      assert Objects() == old(Objects())[old(|objects|) := inst.Value()];
    }

    method Remove(n: Bench.Name) returns (ok: bool)
      requires Valid()
      modifies this
      ensures Valid() && Owned() == old(Owned())
      ensures View() == Bench.ApplyRemove(old(View()), n)
      ensures ok <==> n in old(instruments)
    {
      ok := n in instruments;
      instruments := instruments - {n};
      ids := ids - {n};
      assert Objects() == old(Objects());
    }

    /** The owner of an instrument, if the name is registered. */
    method Owner(n: Bench.Name) returns (known: bool, owner: Option<Session>)
      requires Valid()
      ensures known <==> n in View().registry
      ensures forall s: Session :: Bench.OwnedBy(View(), n, s) <==> known && owner == Some(s)
    {
      known := n in instruments;
      owner := if known then instruments[n].owner else None;
      assert known ==> View().objs[ids[n]] == instruments[n].Value();
    }

    method Lock(n: Bench.Name, s: Session) returns (reply: Reply)
      requires Valid()
      modifies Owned()
      ensures Valid() && Owned() == old(Owned())
      ensures View() ==
                if Bench.Lockable(old(View()), s, n) then Bench.AcquireOne(old(View()), s, old(ids)[n]) else old(View())
      ensures reply == if Bench.Lockable(old(View()), s, n) then Done else LockRefusal(old(View()), s, n)
    {
      Facts(n);
      assert n in instruments && instruments[n].status == Bench.Idle ==> instruments[n].owner == None;
      hide View, Valid, Objects, Owned;
      if n !in instruments {
        return NotFound;
      }
      var inst := instruments[n];
      if inst.status != Bench.Idle {
        if inst.owner.Some? && inst.owner.value != s {
          return OwnedByOther(inst.owner.value);
        }
        if inst.owner == Some(s) {
          return Done;
        }
        return NotIdle;
      }
      SetLocked(inst, ids[n], s);
      reply := Done;
    }

    /**
     * ILOCK (testcore/commands.py): every name is checked before any instrument is taken, and a
     * name that comes twice is taken once.
     */
    method HandleLock(names: seq<Bench.Name>, s: Session) returns (reply: Reply)
      requires Valid()
      modifies Owned()
      ensures Valid() && Owned() == old(Owned())
      ensures View() == Bench.LockAll(old(View()), s, names)
      ensures reply == Done <==> forall n :: n in names ==> Bench.Lockable(old(View()), s, n)
      ensures reply != Done ==>
                exists i :: (0 <= i < |names| && !Bench.Lockable(old(View()), s, names[i])
                             && reply == LockRefusal(old(View()), s, names[i])
                             && forall j :: 0 <= j < i ==> Bench.Lockable(old(View()), s, names[j]))
    {
      var taken: seq<Instrument> := [];
      for i := 0 to |names|
        invariant |taken| == i && forall j :: 0 <= j < i ==>
                    names[j] in instruments && taken[j] == instruments[names[j]] && Bench.Lockable(View(), s, names[j])
      {
        var n := names[i];
        if n !in instruments {
          assert !Bench.Lockable(View(), s, n);
          return NotFound;
        }
        var inst := instruments[n];
        assert View().objs[ids[n]] == inst.Value();
        if inst.status != Bench.Idle && inst.owner != Some(s) {
          assert !Bench.Lockable(View(), s, n);
          if inst.owner.Some? {
            return OwnedByOther(inst.owner.value);
          }
          return NotIdle;
        }
        taken := taken + [inst];
      }
      AcquireLoop(taken, names, s);
      reply := Done;
    }

    method Take(inst: Instrument, ghost o: Bench.ObjId, s: Session)
      requires Valid() && o < |objects| && objects[o] == inst
      modifies inst
      ensures Valid()
      ensures View() == Bench.AcquireOne(old(View()), s, o)
    {
      assert View().objs[o] == inst.Value();
      if inst.owner != Some(s) {
        SetLocked(inst, o, s);
      }
    }

    method AcquireLoop(taken: seq<Instrument>, names: seq<Bench.Name>, s: Session)
      requires Valid() && |taken| == |names|
      requires forall j :: 0 <= j < |names| ==> names[j] in instruments && taken[j] == instruments[names[j]]
      modifies Owned()
      ensures Valid() && Owned() == old(Owned())
      ensures View() == Bench.Acquire(old(View()), s, names)
    {
      assert View().registry == ids;
      assert forall j :: 0 <= j < |names| ==>
               && names[j] in ids && ids[names[j]] < |objects| && objects[ids[names[j]]] == taken[j]
               && taken[j] in Owned();
      hide Bench.AcquireOne, View, Valid, Objects, Owned;
      for i := 0 to |taken|
        invariant Valid() && View().registry == ids
        invariant Bench.Acquire(View(), s, names[i..]) == Bench.Acquire(old(View()), s, names)
      {
        assert names[i..][1..] == names[i + 1..];
        Take(taken[i], ids[names[i]], s);
      }
    }

    /** `safe` tells whether the driver's safe_state returned; the owner is gone either way. */
    method Unlock(n: Bench.Name, s: Session, safe: bool) returns (reply: Reply)
      requires Valid()
      modifies Owned()
      ensures Valid() && Owned() == old(Owned())
      ensures View() == if Bench.OwnedBy(old(View()), n, s) then Bench.Release(old(View()), n, safe) else old(View())
      ensures reply == UnlockReply(old(View()), s, n)
    {
      Facts(n);
      if n in instruments {
        ReleaseAlone(View(), n, safe);
      }
      hide View, Valid, Objects, Owned, Bench.Release;
      if n !in instruments {
        return NotFound;
      }
      var inst := instruments[n];
      if inst.owner.None? {
        return NotLocked;
      }
      if inst.owner.value != s {
        return OwnedByOther(inst.owner.value);
      }
      SetReleased(inst, ids[n], safe);
      reply := Done;
    }

    /** IRESET by session `s`; `connects` tells whether the driver could be connected again. */
    method Reset(n: Bench.Name, connects: bool, ghost s: Session) returns (reply: Reply)
      requires Valid()
      modifies Owned()
      ensures Valid() && Owned() == old(Owned())
      ensures View().(live := {s}) == Bench.ApplyReset(old(View()).(live := {s}), s, n, connects)
      ensures reply == Done <==>
                connects && n in old(View()).registry && Bench.Broken(old(View()).objs[old(View()).registry[n]].status)
    {
      Facts(n);
      assert View().command.None?;
      hide View, Valid, Objects, Owned;
      if n !in instruments {
        return NotFound;
      }
      var inst := instruments[n];
      if !Bench.Broken(inst.status) {
        return WrongState;
      }
      if !connects {
        return NoConnection;
      }
      SetReset(inst, ids[n]);
      reply := Done;
    }

    /** `_tracked_call` has ended with `outcome`. */
    method CallReturned(inst: Instrument, ghost o: Bench.ObjId, outcome: Bench.Outcome)
      requires Valid() && o < |objects| && objects[o] == inst
      modifies inst
      ensures Valid() && View() == old(View()).(objs := Bench.AfterUse(old(View()).objs, o, outcome))
    {
      match outcome
      case Returned(_) =>
      case Refused(_) =>
      case Crashed(_) => inst.status := Bench.Fault;
      case TimedOut => inst.status := Bench.Unresponsive;
      assert Objects() == old(Objects())[o := inst.Value()];
    }

    /** `_call_driver` alone has ended with `outcome`, as for pings and guards. */
    method CallEnded(inst: Instrument, ghost o: Bench.ObjId, outcome: Bench.Outcome)
      requires Valid() && o < |objects| && objects[o] == inst
      modifies inst
      ensures Valid() && View() == old(View()).(objs := Bench.AfterFailure(old(View()).objs, o, outcome))
    {
      if outcome.TimedOut? {
        inst.status := Bench.Unresponsive;
      }
      assert Objects() == old(Objects())[o := inst.Value()];
    }

    /** `_guard_trip` marks the instrument. */
    method MarkFault(inst: Instrument, ghost o: Bench.ObjId)
      requires Valid() && o < |objects| && objects[o] == inst
      modifies inst
      ensures Valid() && View() == old(View()).(objs := Bench.WithStatus(old(View()).objs, o, Bench.Fault))
    {
      inst.status := Bench.Fault;
      assert Objects() == old(Objects())[o := inst.Value()];
    }

    /** `_require_lock` and `_check_ready`. */
    method CheckUse(n: Bench.Name, s: Session) returns (reply: Reply)
      requires Valid()
      ensures reply == UseReply(View(), s, n)
    {
      if n !in instruments {
        return NotFound;
      }
      var inst := instruments[n];
      assert View().objs[ids[n]] == inst.Value();
      if inst.owner != Some(s) {
        return if inst.owner.None? then NotLocked else OwnedByOther(inst.owner.value);
      }
      match inst.status
      case Idle => reply := NotLocked;
      case Locked => reply := NotInit;
      case Ready => reply := Done;
      case Unresponsive => reply := InFault;
      case Fault => reply := InFault;
    }

    /** The last call of IINIT or IALIGN has returned the resources. */
    method BecomeReady(inst: Instrument, ghost o: Bench.ObjId, found: seq<string>)
      requires Valid() && o < |objects| && objects[o] == inst
      modifies inst
      ensures Valid() && View() == old(View()).(objs := Bench.MarkReady(old(View()).objs, o, found))
    {
      inst.resources := found;
      inst.status := Bench.Ready;
      assert Objects() == old(Objects())[o := inst.Value()];
    }

    /** A health ping has ended (testcore/health.py). */
    method HealthReturned(inst: Instrument, ghost o: Bench.ObjId, outcome: Bench.Outcome)
      requires Valid() && o < |objects| && objects[o] == inst
      modifies inst
      ensures Valid() && o in old(View()).objs
      ensures View() == old(View()).(objs := old(View()).objs[o := Bench.AfterPing(old(View()).objs[o], outcome)])
    {
      hide Bench.AfterPing;
      inst.Pinged(outcome);
      assert Objects() == old(Objects())[o := inst.Value()];
    }
  }
}
