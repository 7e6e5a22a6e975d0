/**
 * What the store holds after its operations, key by key: the value of the last accepted write that no
 * removal followed, and whose it is.
 */
module StoreWrites {
  import opened Wrappers
  import opened Store
  import opened StoreHistory
  import Glob

  // ---------------------------------------------------------------- what is observed

  function Value(db: Db, k: string): Option<string> {
    if k in db.data then Some(db.data[k]) else None
  }

  function Owner(db: Db, k: string): Option<Session> {
    if k in db.owners then Some(db.owners[k]) else None
  }

  /** Nothing is known of the keys in `but`; every other key keeps its value and its owner. */
  ghost predicate KeptBut(a: Db, b: Db, but: set<string>) {
    forall k :: k !in but ==> Value(b, k) == Value(a, k) && Owner(b, k) == Owner(a, k)
  }

  const RESERVED_PREFIXES: set<string> := {"_sys:", "_drv:", "_inst:", "_sess:", "_lock:", "_watch:", "_meas:"}

  /** The reserved keys are those with one of the seven prefixes; every key of a measurement is one of them. */
  lemma ReservedIff(key: string)
    ensures Reserved(key) <==> exists prefix, rest :: prefix in RESERVED_PREFIXES && key == prefix + rest
    ensures forall n, r :: Reserved(MeasKey(n, r))
  {
    forall prefix | prefix in RESERVED_PREFIXES ensures prefix <= key <==> exists rest :: key == prefix + rest {
      if prefix <= key {
        assert key == prefix + key[|prefix|..];
      }
    }
    forall n: string, r: string ensures Reserved(MeasKey(n, r)) {
      assert MeasKey(n, r) == "_meas:" + (n + ":" + r);
      assert "_meas:" <= MeasKey(n, r);
    }
  }

  // ---------------------------------------------------------------- KSET

  /** KSET is refused for reserved keys and for another session's, and then, or if NX or XX fails, changes nothing. */
  lemma SetRefusedIff(db: Db, key: string, value: string, nx: bool, xx: bool, ro: bool, who: Option<Session>)
    ensures var (r, b) := SetSpec(db, key, value, nx, xx, ro, who);
            && (r == Refused <==> Reserved(key) || (Owner(db, key).Some? && Owner(db, key) != who))
            && (r == Stored <==> r != Refused && (nx ==> Value(db, key).None?) && (xx ==> Value(db, key).Some?))
            && (r != Stored ==> b == db)
  {
    hide Reserved;
  }

  /**
   * A stored KSET: the key has the value, whatever it had before; a new key is the last in the order. With
   * RO it belongs to the session; without, the session gives it up; everything else stays.
   */
  lemma SetStores(db: Db, key: string, value: string, nx: bool, xx: bool, ro: bool, who: Option<Session>)
    requires SetSpec(db, key, value, nx, xx, ro, who).0 == Stored
    ensures var b := SetSpec(db, key, value, nx, xx, ro, who).1;
            && Value(b, key) == Some(value) && KeptBut(db, b, {key})
            && b.order == (if Value(db, key).Some? then db.order else db.order + [key])
            && Owner(b, key) == (if who.None? then Owner(db, key) else if ro then who else None)
  {
    hide Reserved;
  }

  // ---------------------------------------------------------------- KMSET

  /** Pair `i` is the last one for its key. */
  predicate LastFor(pairs: seq<(string, string)>, i: int, k: string) {
    0 <= i < |pairs| && pairs[i].0 == k && forall j :: i < j < |pairs| ==> pairs[j].0 != k
  }

  function Keys(pairs: seq<(string, string)>): set<string> {
    set i | 0 <= i < |pairs| :: pairs[i].0
  }

  lemma PutStores(db: Db, key: string, value: string)
    ensures var b := PutSpec(db, key, value);
            && Value(b, key) == Some(value) && KeptBut(db, b, {key}) && Owner(b, key) == Owner(db, key)
            && db.order <= b.order && (forall k :: k in b.order <==> k in db.order || (k == key && key !in db.data))
  {
  }

  lemma {:induction false} PutAllStores(db: Db, pairs: seq<(string, string)>)
    ensures var b := PutAll(db, pairs);
            && (forall i, k :: LastFor(pairs, i, k) ==> Value(b, k) == Some(pairs[i].1))
            && (forall k :: Owner(b, k) == Owner(db, k)) && KeptBut(db, b, Keys(pairs)) && db.order <= b.order
    decreases |pairs|
  {
    hide PutSpec, Value, Owner;
    if pairs != [] {
      var next, rest := PutSpec(db, pairs[0].0, pairs[0].1), pairs[1..];
      PutStores(db, pairs[0].0, pairs[0].1);
      PutAllStores(next, rest);
      forall i, k | LastFor(pairs, i, k) ensures Value(PutAll(db, pairs), k) == Some(pairs[i].1) {
        if i > 0 {
          assert LastFor(rest, i - 1, k);
        } else {
          assert forall j :: 0 <= j < |rest| ==> rest[j] == pairs[j + 1];
          assert k !in Keys(rest);
        }
      }
      assert forall k :: k in Keys(rest) ==> k in Keys(pairs) by {
        assert forall j :: 0 <= j < |rest| ==> rest[j] == pairs[j + 1];
      }
      assert pairs[0].0 in Keys(pairs);
    }
  }

  /**
   * KMSET is refused as a whole if one of its keys is reserved or another session's, and then changes nothing.
   * Otherwise every key has the value of its last pair, and everything else stays, owners included.
   */
  lemma MSetStores(db: Db, pairs: seq<(string, string)>, who: Option<Session>)
    ensures var (ok, b) := MSetSpec(db, pairs, who);
            && (ok <==> forall k :: k in Keys(pairs) ==>
                          !Reserved(k) && (Owner(db, k).Some? ==> Owner(db, k) == who))
            && (!ok ==> b == db)
            && (ok ==> forall i, k :: LastFor(pairs, i, k) ==> Value(b, k) == Some(pairs[i].1))
            && (ok ==> (forall k :: Owner(b, k) == Owner(db, k)) && KeptBut(db, b, Keys(pairs)) && db.order <= b.order)
  {
    hide Reserved, PutAll;
    PutAllStores(db, pairs);
    if i :| 0 <= i < |pairs| && Untouchable(db, pairs[i].0, who) {
      assert pairs[i].0 in Keys(pairs);
    }
  }

  // ---------------------------------------------------------------- KDEL

  function Present(db: Db, keys: seq<string>): set<string> {
    set k | k in keys && k in db.data
  }

  lemma DropStores(db: Db, key: string)
    ensures var b := Drop(db, key);
            && Value(b, key) == None && Owner(b, key) == None && KeptBut(db, b, {key})
            && b.order == Filter(k => k != key, db.order)
  {
    WithoutIsFilter(db.order, key);
  }

  lemma {:induction false} WithoutIsFilter(order: seq<string>, key: string)
    ensures Without(order, key) == Filter(k => k != key, order)
  {
    if order != [] {
      WithoutIsFilter(order[1..], key);
    }
  }

  lemma {:induction false} FilterTwice(p: string -> bool, q: string -> bool, r: string -> bool, keys: seq<string>)
    requires forall k :: k in keys ==> (r(k) <==> p(k) && q(k))
    ensures Filter(q, Filter(p, keys)) == Filter(r, keys)
  {
    if keys != [] {
      FilterTwice(p, q, r, keys[1..]);
    }
  }

  lemma {:induction false} FilterAll(p: string -> bool, keys: seq<string>)
    requires forall k :: k in keys ==> p(k)
    ensures Filter(p, keys) == keys
  {
    if keys != [] {
      FilterAll(p, keys[1..]);
    }
  }

  lemma {:induction false} DropAllStores(db: Db, keys: seq<string>)
    requires Consistent(db)
    ensures var (n, b) := DropAll(db, keys);
            && n == |Present(db, keys)| && KeptBut(db, b, set k | k in keys)
            && (forall k :: k in keys ==> Value(b, k) == None && Owner(b, k) == None)
            && b.order == Filter(k => k !in keys, db.order)
    decreases |keys|
  {
    hide Drop, Value, Owner, Filter, Consistent;
    if keys == [] {
      FilterAll(k => k !in keys, db.order);
      assert Present(db, keys) == {};
    } else {
      var key, rest := keys[0], keys[1..];
      assert keys == [key] + rest;
      DropCounts(db, key, rest);
      AbsentIsUnowned(db, key);
      assert forall k :: k in keys <==> k == key || k in rest;
      if key in db.data {
        DropStores(db, key);
        DropConsistent(db, key);
        DropAllStores(Drop(db, key), rest);
        FilterTwice(k => k != key, k => k !in rest, k => k !in keys, db.order);
      } else {
        DropAllStores(db, rest);
        FilterSame(k => k !in rest, k => k !in keys, db.order);
      }
    }
  }

  lemma AbsentIsUnowned(db: Db, key: string)
    requires Consistent(db)
    ensures key !in db.data ==> Value(db, key) == None && Owner(db, key) == None && key !in db.order
  {
  }

  lemma {:induction false} FilterSame(p: string -> bool, q: string -> bool, keys: seq<string>)
    requires forall k :: k in keys ==> (p(k) <==> q(k))
    ensures Filter(p, keys) == Filter(q, keys)
  {
    if keys != [] {
      FilterSame(p, q, keys[1..]);
    }
  }

  lemma DropCounts(db: Db, key: string, rest: seq<string>)
    ensures |Present(db, [key] + rest)|
            == if key in db.data then |Present(Drop(db, key), rest)| + 1 else |Present(db, rest)|
  {
    hide Without;
    if key in db.data {
      assert Present(db, [key] + rest) == Present(Drop(db, key), rest) + {key};
    } else {
      assert Present(db, [key] + rest) == Present(db, rest);
    }
  }

  /**
   * KDEL is refused as a whole like KMSET. Otherwise all named keys are gone with their owners, the count is
   * the number of those that were there, each once, and everything else stays, in its order.
   */
  lemma DeleteStores(db: Db, keys: seq<string>, who: Option<Session>)
    requires Consistent(db)
    ensures var (count, b) := DeleteSpec(db, keys, who);
            && (count.Some? <==> forall k :: k in keys ==> !Reserved(k) && (Owner(db, k).Some? ==> Owner(db, k) == who))
            && (count.None? ==> b == db)
            && (count.Some? ==>
                  && count.value == |Present(db, keys)| && KeptBut(db, b, set k | k in keys)
                  && (forall k :: k in keys ==> Value(b, k) == None && Owner(b, k) == None)
                  && b.order == Filter(k => k !in keys, db.order))
  {
    hide Reserved, DropAll, Filter, Consistent;
    DropAllStores(db, keys);
    if i :| 0 <= i < |keys| && Untouchable(db, keys[i], who) {
      assert keys[i] in keys;
    }
  }

  // ---------------------------------------------------------------- KEYS

  /** `a` stands before `b` in the list. */
  ghost predicate Before(keys: seq<string>, a: string, b: string) {
    exists x, y :: 0 <= x < y < |keys| && keys[x] == a && keys[y] == b
  }

  /** The elements of `r` come in this order in `keys` too. */
  ghost predicate InOrder(keys: seq<string>, r: seq<string>) {
    forall i, j :: 0 <= i < j < |r| ==> Before(keys, r[i], r[j])
  }

  lemma BeforeRest(keys: seq<string>, a: string, b: string)
    requires keys != []
    ensures Before(keys[1..], a, b) ==> Before(keys, a, b)
    ensures keys[0] == a && b in keys[1..] ==> Before(keys, a, b)
  {
    if x, y :| 0 <= x < y < |keys[1..]| && keys[1..][x] == a && keys[1..][y] == b {
      assert keys[x + 1] == a && keys[y + 1] == b;
    }
    if keys[0] == a && b in keys[1..] {
      var y :| 0 <= y < |keys[1..]| && keys[1..][y] == b;
      assert keys[y + 1] == b;
    }
  }

  /** What a filter leaves: the elements with the property, in the order they had. */
  lemma {:induction false} FilterLeaves(p: string -> bool, keys: seq<string>)
    ensures forall k :: k in Filter(p, keys) <==> k in keys && p(k)
    ensures InOrder(keys, Filter(p, keys))
  {
    if keys != [] {
      FilterLeaves(p, keys[1..]);
      var r, rest := Filter(p, keys), Filter(p, keys[1..]);
      forall i, j | 0 <= i < j < |r| ensures Before(keys, r[i], r[j]) {
        BeforeRest(keys, r[i], r[j]);
        if !p(keys[0]) {
          assert Before(keys[1..], rest[i], rest[j]);
        } else if i > 0 {
          assert r[i] == rest[i - 1] && r[j] == rest[j - 1] && Before(keys[1..], rest[i - 1], rest[j - 1]);
        } else {
          assert r[j] == rest[j - 1] && rest[j - 1] in rest;
        }
      }
    }
  }

  /** KEYS lists the stored keys that the pattern stands for, each once, in the order they were first stored. */
  lemma KeysExact(db: Db, pieces: seq<Glob.Piece>)
    requires Consistent(db) && forall i :: 0 <= i < |pieces| ==> Glob.Writable(pieces[i])
    ensures var r := KeysSpec(db, Glob.WritePieces(pieces));
            && (forall k :: k in r <==> Value(db, k).Some? && Glob.Fits(k, pieces))
            && (forall i, j :: 0 <= i < j < |r| ==> r[i] != r[j]) && InOrder(db.order, r)
  {
    hide Glob.Match, Glob.WritePieces, Glob.Fits, Glob.Writable, Reserved, Filter;
    var pattern := Glob.WritePieces(pieces);
    FilterLeaves(k => !Reserved(k) && Glob.Match(k, pattern), db.order);
    forall k ensures Glob.Match(k, pattern) <==> Glob.Fits(k, pieces) {
      Glob.MatchIsFits(k, pieces);
    }
    var r := KeysSpec(db, pattern);
    forall i, j | 0 <= i < j < |r| ensures r[i] != r[j] {
      assert Before(db.order, r[i], r[j]);
    }
  }

  // ---------------------------------------------------------------- histories

  /** What an operation writes under `k`, if it is accepted. */
  ghost function Writes(db: Db, op: Op, who: Option<Session>, k: string): Option<string> {
    match op
    case Set(key, value, nx, xx, ro) =>
      if key == k && SetSpec(db, key, value, nx, xx, ro, who).0 == Stored then Some(value) else None
    case MSet(pairs) =>
      if MSetSpec(db, pairs, who).0 && exists i :: LastFor(pairs, i, k) then
        var i :| LastFor(pairs, i, k);
        Some(pairs[i].1)
      else None
    case _ => None
  }

  /** An accepted KDEL names `k`, or a FLUSHDB covers it. */
  predicate Removes(db: Db, op: Op, who: Option<Session>, k: string) {
    match op
    case Delete(keys) => k in keys && DeleteSpec(db, keys, who).0.Some?
    case Flush => !Foreign(db, k, who)
    case _ => false
  }

  lemma {:induction false} LastForExists(pairs: seq<(string, string)>, k: string)
    requires k in Keys(pairs)
    ensures exists i :: LastFor(pairs, i, k)
    decreases |pairs|
  {
    var n := |pairs| - 1;
    if pairs[n].0 == k {
      assert LastFor(pairs, n, k);
    } else {
      var i :| 0 <= i < |pairs| && pairs[i].0 == k;
      assert pairs[..n][i] == pairs[i];
      LastForExists(pairs[..n], k);
      var j :| LastFor(pairs[..n], j, k);
      assert LastFor(pairs, j, k) by {
        assert forall m :: 0 <= m < n ==> pairs[..n][m] == pairs[m];
      }
    }
  }

  /** One operation: a key has the value it writes, none if it removes it, and otherwise the one it had. */
  lemma StepValue(db: Db, op: Op, who: Option<Session>, k: string)
    requires Consistent(db)
    ensures Value(Step(db, op, who), k) ==
              if Writes(db, op, who, k).Some? then Writes(db, op, who, k)
              else if Removes(db, op, who, k) then None
              else Value(db, k)
  {
    hide Consistent, SetSpec, MSetSpec, DeleteSpec, FlushKeys, Filter, Owner, Value;
    match op
    case Set(key, value, nx, xx, ro) =>
      SetRefusedIff(db, key, value, nx, xx, ro, who);
      if SetSpec(db, key, value, nx, xx, ro, who).0 == Stored {
        SetStores(db, key, value, nx, xx, ro, who);
      }
    case MSet(pairs) =>
      MSetStores(db, pairs, who);
      if k in Keys(pairs) {
        LastForExists(pairs, k);
      }
    case Delete(keys) =>
      DeleteStores(db, keys, who);
    case Flush =>
      FlushValue(db, who, k);
    case Release =>
      ReleaseValue(db, who, k);
  }

  lemma ReleaseValue(db: Db, who: Option<Session>, k: string)
    ensures Value(Step(db, Release, who), k) == Value(db, k)
  {
  }

  lemma {:induction false} FlushKeeps(db: Db, keys: seq<string>, who: Option<Session>, k: string)
    ensures k in FlushKeys(db, keys, who).data ==> k in db.data && FlushKeys(db, keys, who).data[k] == db.data[k]
    decreases |keys|
  {
    hide Untouchable;
    if keys != [] {
      FlushKeeps(if Untouchable(db, keys[0], who) then db else Drop(db, keys[0]), keys[1..], who, k);
    }
  }

  lemma FlushValue(db: Db, who: Option<Session>, k: string)
    requires Consistent(db)
    ensures Value(Step(db, Flush, who), k) == if Foreign(db, k, who) then Value(db, k) else None
  {
    hide Consistent, FlushKeys;
    FlushExact(db, who);
    FlushKeeps(db, db.order, who, k);
  }

  type Trace = seq<(Op, Option<Session>)>

  /** The store after the first `i` operations. */
  function StateAt(db: Db, trace: Trace, i: int): Db {
    if 0 <= i <= |trace| then Run(db, trace[..i]) else db
  }

  ghost predicate WritesAt(db: Db, trace: Trace, i: int, k: string, v: string) {
    0 <= i < |trace| && Writes(StateAt(db, trace, i), trace[i].0, trace[i].1, k) == Some(v)
  }

  /** No operation from `i` to before `n` writes or removes `k`. */
  ghost predicate Untouched(db: Db, trace: Trace, i: int, n: int, k: string) {
    forall j :: i <= j < n && 0 <= j < |trace| ==>
      Writes(StateAt(db, trace, j), trace[j].0, trace[j].1, k).None?
      && !Removes(StateAt(db, trace, j), trace[j].0, trace[j].1, k)
  }

  /** A history can be cut anywhere. */
  lemma {:induction false} RunAppend(db: Db, trace: Trace, more: Trace)
    ensures Run(db, trace + more) == Run(Run(db, trace), more)
    decreases |trace|
  {
    hide Step;
    if trace == [] {
      assert trace + more == more;
    } else {
      assert (trace + more)[1..] == trace[1..] + more;
      RunAppend(Step(db, trace[0].0, trace[0].1), trace[1..], more);
    }
  }

  lemma RunOne(db: Db, op: Op, who: Option<Session>)
    ensures Run(db, [(op, who)]) == Step(db, op, who)
  {
    hide Step;
    assert [(op, who)][1..] == [];
  }

  lemma StateStep(db: Db, trace: Trace, n: nat)
    requires n < |trace| && Consistent(db)
    ensures StateAt(db, trace, n + 1) == Step(StateAt(db, trace, n), trace[n].0, trace[n].1)
    ensures Consistent(StateAt(db, trace, n))
  {
    hide Consistent, Run, Step;
    assert trace[..n + 1] == trace[..n] + [(trace[n].0, trace[n].1)];
    RunAppend(db, trace[..n], [trace[n]]);
    RunOne(Run(db, trace[..n]), trace[n].0, trace[n].1);
    RunConsistent(db, trace[..n]);
  }

  /**
   * After every history: a key has the value of the last accepted write of it with no removal behind, or
   * the value it had at first if nothing touched it, and no other.
   */
  lemma {:induction false} ValueIsLastWrite(db: Db, trace: Trace, n: nat, k: string, v: string)
    requires Consistent(db) && n <= |trace|
    ensures Value(StateAt(db, trace, n), k) == Some(v) <==>
              || (exists i :: 0 <= i < n && WritesAt(db, trace, i, k, v) && Untouched(db, trace, i + 1, n, k))
              || (Value(db, k) == Some(v) && Untouched(db, trace, 0, n, k))
    decreases n
  {
    hide Consistent, Writes, Removes, Step, Value, StateAt;
    if n == 0 {
      StartState(db, trace);
    } else {
      var m := n - 1;
      ValueIsLastWrite(db, trace, m, k, v);
      StateStep(db, trace, m);
      StepValue(StateAt(db, trace, m), trace[m].0, trace[m].1, k);
      assert forall i :: 0 <= i <= m ==>
        (Untouched(db, trace, i, n, k) <==> Untouched(db, trace, i, m, k) && Untouched(db, trace, m, n, k));
      assert WritesAt(db, trace, m, k, v) ==> Untouched(db, trace, m + 1, n, k);
    }
  }

  lemma StartState(db: Db, trace: Trace)
    ensures StateAt(db, trace, 0) == db
  {
  }

  /** The value of a stored KSET with RO stays whatever other sessions do. */
  lemma ReadOnlyStays(db: Db, key: string, value: string, nx: bool, xx: bool, s: Session, trace: Trace)
    requires SetSpec(db, key, value, nx, xx, true, Some(s)).0 == Stored
    requires forall i :: 0 <= i < |trace| ==> trace[i].1 != Some(s)
    ensures Value(Run(SetSpec(db, key, value, nx, xx, true, Some(s)).1, trace), key) == Some(value)
  {
    hide SetSpec, Run;
    SetStores(db, key, value, nx, xx, true, Some(s));
    ReadOnlyProtected(SetSpec(db, key, value, nx, xx, true, Some(s)).1, trace, key, value, s);
  }
}
