/**
 * The guard table as the mutable object it is (testcore/watch.py): a dictionary of dictionaries of
 * entries with their tasks. Every method is proved against the functions of `Bench`.
 */
module Watching {
  import opened Wrappers
  import Bench

  class WatchManager {
    var watches: map<Bench.Name, map<string, Bench.TaskId>>
    /** The guard tasks that have not ended. */
    var guards: map<Bench.TaskId, Bench.Guard>
    var nextTask: nat

    constructor ()
      ensures View() == Bench.INIT
    {
      watches, guards, nextTask := map[], map[], 0;
    }

    ghost function View(): Bench.State
      reads this
    {
      Bench.INIT.(watches := watches, guards := guards, nextTask := nextTask)
    }

    method Cancel(t: Bench.TaskId)
      modifies this`guards
      ensures guards == old(guards) - {t}
    {
      guards := guards - {t};
    }

    method Stop(n: Bench.Name, r: string) returns (existed: bool)
      modifies this
      ensures View() == Bench.StopGuard(old(View()), n, r)
      ensures existed <==> n in old(watches) && r in old(watches)[n]
      ensures !existed ==> View() == old(View())
    {
      if n !in watches || r !in watches[n] {
        return false;
      }
      var t := watches[n][r];
      watches := watches[n := watches[n] - {r}];
      Cancel(t);
      if watches[n] == map[] {
        watches := watches - {n};
        assert watches == old(watches) - {n};
      }
      existed := true;
    }

    method Start(o: Bench.ObjId, n: Bench.Name, r: string, low: Option<real>, high: Option<real>)
      modifies this
      ensures View() == Bench.StartGuard(old(View()), o, n, r, low, high)
    {
      var existed := Stop(n, r);
      guards := guards[nextTask := Bench.Guard(o, n, r, low, high, Bench.Sleeping)];
      var table: map<string, Bench.TaskId> := if n in watches then watches[n] else map[];
      watches := watches[n := table[r := nextTask]];
      nextTask := nextTask + 1;
    }

    /** The tasks of a table are cancelled one by one. */
    method StopInstrument(n: Bench.Name)
      modifies this
      ensures View() == Bench.StopGuards(old(View()), n)
    {
      var entries := if n in watches then watches[n] else map[];
      watches := watches - {n};
      var pending := entries.Keys;
      while pending != {}
        modifies this`guards
        invariant pending <= entries.Keys
        invariant guards == old(guards) - (set r | r in entries && r !in pending :: entries[r])
        decreases pending
      {
        var r :| r in pending;
        Cancel(entries[r]);
        pending := pending - {r};
      }
      assert guards == old(guards) - Bench.TasksAt(old(watches), n);
    }
  }
}
