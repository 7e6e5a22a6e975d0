/**
 * What the store promises over whole histories: read-only keys cannot be touched by anyone but
 * their owner, and measurement entries of one instrument are not disturbed by another's.
 */
module StoreHistory {
  import opened Wrappers
  import opened Store

  datatype Op =
    | Set(key: string, value: string, nx: bool, xx: bool, ro: bool)
    | MSet(pairs: seq<(string, string)>)
    | Delete(keys: seq<string>)
    | Flush
    | Release

  /** The store after one operation by session `who` (or by no session). */
  function Step(db: Db, op: Op, who: Option<Session>): Db {
    match op
    case Set(key, value, nx, xx, ro) => SetSpec(db, key, value, nx, xx, ro, who).1
    case MSet(pairs) => MSetSpec(db, pairs, who).1
    case Delete(keys) => DeleteSpec(db, keys, who).1
    case Flush => FlushKeys(db, db.order, who)
    case Release => if who.Some? then ReleaseSpec(db, who.value) else db
  }

  function Run(db: Db, trace: seq<(Op, Option<Session>)>): Db
    decreases |trace|
  {
    if trace == [] then db else Run(Step(db, trace[0].0, trace[0].1), trace[1..])
  }

  // ---------------------------------------------------------------- invariant

  /** Keys are listed once each, none is reserved, and owned keys are present. */
  ghost predicate Consistent(db: Db) {
    && (forall k :: k in db.order <==> k in db.data)
    && (forall i, j :: 0 <= i < j < |db.order| ==> db.order[i] != db.order[j])
    && (forall k :: k in db.data ==> !Reserved(k))
    && (forall k :: k in db.owners ==> k in db.data)
  }

  lemma {:induction false} WithoutDistinct(order: seq<string>, key: string)
    requires forall i, j :: 0 <= i < j < |order| ==> order[i] != order[j]
    ensures forall i, j :: 0 <= i < j < |Without(order, key)| ==> Without(order, key)[i] != Without(order, key)[j]
  {
    if order != [] {
      WithoutDistinct(order[1..], key);
      assert forall i :: 0 <= i < |order[1..]| ==> order[1..][i] == order[i + 1];
      assert order[0] !in order[1..];
    }
  }

  lemma PutConsistent(db: Db, key: string, value: string)
    requires Consistent(db) && !Reserved(key)
    ensures Consistent(PutSpec(db, key, value))
  {
    hide Reserved;
    var next := PutSpec(db, key, value);
    assert forall k :: k in db.order + [key] <==> k in db.order || k == key;
  }

  lemma DropConsistent(db: Db, key: string)
    requires Consistent(db)
    ensures Consistent(Drop(db, key))
  {
    hide Reserved, Without;
    WithoutDistinct(db.order, key);
  }

  lemma {:induction false} PutAllConsistent(db: Db, pairs: seq<(string, string)>)
    requires Consistent(db) && forall i :: 0 <= i < |pairs| ==> !Reserved(pairs[i].0)
    ensures Consistent(PutAll(db, pairs))
    decreases |pairs|
  {
    hide Reserved, PutSpec, Consistent;
    if pairs != [] {
      PutConsistent(db, pairs[0].0, pairs[0].1);
      PutAllConsistent(PutSpec(db, pairs[0].0, pairs[0].1), pairs[1..]);
    }
  }

  lemma {:induction false} DropAllConsistent(db: Db, keys: seq<string>)
    requires Consistent(db)
    ensures Consistent(DropAll(db, keys).1)
    decreases |keys|
  {
    hide Consistent, Drop;
    if keys != [] {
      DropConsistent(db, keys[0]);
      DropAllConsistent(if keys[0] in db.data then Drop(db, keys[0]) else db, keys[1..]);
    }
  }

  lemma {:induction false} FlushConsistent(db: Db, keys: seq<string>, who: Option<Session>)
    requires Consistent(db)
    ensures Consistent(FlushKeys(db, keys, who))
    decreases |keys|
  {
    hide Consistent, Drop, Untouchable;
    if keys != [] {
      DropConsistent(db, keys[0]);
      FlushConsistent(if Untouchable(db, keys[0], who) then db else Drop(db, keys[0]), keys[1..], who);
    }
  }

  /** Every operation, by anyone, keeps owned keys present and stored keys unreserved. */
  lemma StepConsistent(db: Db, op: Op, who: Option<Session>)
    requires Consistent(db)
    ensures Consistent(Step(db, op, who))
  {
    hide PutSpec, Drop, Reserved;
    match op
    case Set(key, value, nx, xx, ro) =>
      if !Untouchable(db, key, who) {
        PutConsistent(db, key, value);
        assert key in PutSpec(db, key, value).data && PutSpec(db, key, value).owners == db.owners by {
          PutFacts(db, key, value);
        }
      }
    case MSet(pairs) =>
      if MSetSpec(db, pairs, who).0 {
        PutAllConsistent(db, pairs);
      }
    case Delete(keys) =>
      DropAllConsistent(db, keys);
    case Flush =>
      FlushConsistent(db, db.order, who);
    case Release =>
  }

  lemma PutFacts(db: Db, key: string, value: string)
    ensures key in PutSpec(db, key, value).data && PutSpec(db, key, value).owners == db.owners
  {
  }

  /** In every reachable state. */
  lemma {:induction false} RunConsistent(db: Db, trace: seq<(Op, Option<Session>)>)
    requires Consistent(db)
    ensures Consistent(Run(db, trace))
    decreases |trace|
  {
    hide Step, Consistent;
    if trace != [] {
      StepConsistent(db, trace[0].0, trace[0].1);
      RunConsistent(Step(db, trace[0].0, trace[0].1), trace[1..]);
    }
  }

  // ---------------------------------------------------------------- protection

  /** Key `k` is present with value `v` and read-only for everybody but `s`. */
  predicate Holds(db: Db, k: string, v: string, s: Session) {
    k in db.data && db.data[k] == v && k in db.owners && db.owners[k] == s
  }

  lemma {:induction false} PutAllElsewhere(db: Db, pairs: seq<(string, string)>, k: string, v: string, s: Session)
    requires Holds(db, k, v, s) && forall i :: 0 <= i < |pairs| ==> pairs[i].0 != k
    ensures Holds(PutAll(db, pairs), k, v, s)
    decreases |pairs|
  {
    if pairs != [] {
      PutAllElsewhere(PutSpec(db, pairs[0].0, pairs[0].1), pairs[1..], k, v, s);
    }
  }

  lemma {:induction false} DropAllElsewhere(db: Db, keys: seq<string>, k: string, v: string, s: Session)
    requires Holds(db, k, v, s) && k !in keys
    ensures Holds(DropAll(db, keys).1, k, v, s)
    decreases |keys|
  {
    if keys != [] {
      DropAllElsewhere(if keys[0] in db.data then Drop(db, keys[0]) else db, keys[1..], k, v, s);
    }
  }

  lemma {:induction false} FlushElsewhere(db: Db, keys: seq<string>, who: Option<Session>, k: string, v: string,
          s: Session)
    requires Holds(db, k, v, s) && who != Some(s)
    ensures Holds(FlushKeys(db, keys, who), k, v, s)
    decreases |keys|
  {
    hide Reserved;
    if keys != [] {
      FlushElsewhere(if Untouchable(db, keys[0], who) then db else Drop(db, keys[0]), keys[1..], who, k, v, s);
    }
  }

  /** Anybody else's operation leaves the key alone, and is refused as a whole if it names it. */
  lemma StepProtected(db: Db, op: Op, who: Option<Session>, k: string, v: string, s: Session)
    requires Holds(db, k, v, s) && who != Some(s)
    ensures Holds(Step(db, op, who), k, v, s)
    ensures op.MSet? && (exists i :: 0 <= i < |op.pairs| && op.pairs[i].0 == k) ==>
              MSetSpec(db, op.pairs, who) == (false, db)
    ensures op.Delete? && k in op.keys ==> DeleteSpec(db, op.keys, who) == (None, db)
  {
    hide Reserved;
    match op
    case Set(key, value, nx, xx, ro) =>
    case MSet(pairs) =>
      if MSetSpec(db, pairs, who).0 {
        PutAllElsewhere(db, pairs, k, v, s);
      }
    case Delete(keys) =>
      if DeleteSpec(db, keys, who).0.Some? {
        DropAllElsewhere(db, keys, k, v, s);
      }
    case Flush =>
      FlushElsewhere(db, db.order, who, k, v, s);
    case Release =>
  }

  /**
   * While a key is owned by `s`, no history of operations by other sessions or by no session
   * changes its value, presence or owner.
   */
  lemma {:induction false} ReadOnlyProtected(db: Db, trace: seq<(Op, Option<Session>)>, k: string, v: string,
          s: Session)
    requires Holds(db, k, v, s)
    requires forall i :: 0 <= i < |trace| ==> trace[i].1 != Some(s)
    ensures Holds(Run(db, trace), k, v, s)
    decreases |trace|
  {
    hide Step, Holds;
    if trace != [] {
      StepProtected(db, trace[0].0, trace[0].1, k, v, s);
      ReadOnlyProtected(Step(db, trace[0].0, trace[0].1), trace[1..], k, v, s);
    }
  }

  /** FLUSHDB removes exactly the keys that are not another session's read-only keys. */
  lemma FlushExact(db: Db, who: Option<Session>)
    requires Consistent(db)
    ensures forall k :: k in Step(db, Flush, who).data <==> k in db.data && Foreign(db, k, who)
  {
    forall k ensures k in Step(db, Flush, who).data <==> k in db.data && Foreign(db, k, who) {
      FlushKey(db, db.order, who, k);
    }
  }

  lemma {:induction false} FlushKey(db: Db, keys: seq<string>, who: Option<Session>, k: string)
    ensures k in FlushKeys(db, keys, who).data <==> k in db.data && (k in keys ==> Untouchable(db, k, who))
    ensures Untouchable(FlushKeys(db, keys, who), k, who) ==> Untouchable(db, k, who)
    decreases |keys|
  {
    hide Reserved;
    if keys != [] {
      FlushKey(if Untouchable(db, keys[0], who) then db else Drop(db, keys[0]), keys[1..], who, k);
      assert k in keys <==> k == keys[0] || k in keys[1..];
    }
  }

  // ---------------------------------------------------------------- measurement keys

  /** The prefix of `n` covers an entry of `m` exactly if `m:r` starts with `n:`. */
  lemma PrefixCovers(n: string, m: string, r: string)
    ensures MeasPrefix(n) <= MeasKey(m, r) <==> n + ":" <= m + ":" + r
  {
    assert MeasPrefix(n) == "_meas:" + (n + ":");
    assert MeasKey(m, r) == "_meas:" + (m + ":" + r);
    assert MeasKey(m, r)[|"_meas:"|..] == m + ":" + r;
    if n + ":" <= m + ":" + r {
      assert forall i :: 0 <= i < |n + ":"| ==> (n + ":")[i] == (m + ":" + r)[i];
    } else if |n + ":"| <= |m + ":" + r| {
      var i :| 0 <= i < |n + ":"| && (n + ":")[i] != (m + ":" + r)[i];
      assert MeasPrefix(n)[|"_meas:"| + i] != MeasKey(m, r)[|"_meas:"| + i];
    }
  }

  /** Among names without colon an instrument's prefix covers its own entries and no others. */
  lemma ColonFreePrefix(n: string, m: string, r: string)
    requires ':' !in n && ':' !in m
    ensures MeasPrefix(n) <= MeasKey(m, r) <==> n == m
  {
    hide MeasPrefix, MeasKey;
    PrefixCovers(n, m, r);
    var a, b := n + ":", m + ":" + r;
    assert a[|n|] == ':' && b[|m|] == ':';
    assert |n| < |m| ==> b[|n|] == m[|n|];
    assert |m| < |n| ==> a[|m|] == n[|m|];
    assert b[..|m|] == m && a[..|n|] == n;
    assert n == m ==> b == a + r;
    if a <= b {
      assert |n| == |m|;
      assert a[..|n|] == b[..|m|];
    }
  }

  /** Neither of the names, with a colon behind it, begins the other. */
  predicate Apart(n: string, m: string) {
    !(n + ":" <= m + ":") && !(m + ":" <= n + ":")
  }

  lemma ColonFreeApart(n: string, m: string)
    requires ':' !in n && ':' !in m && n != m
    ensures Apart(n, m)
  {
    var a, b := n + ":", m + ":";
    assert a[|n|] == ':' && b[|m|] == ':';
    assert a[..|n|] == n && b[..|m|] == m;
    assert |n| < |m| ==> b[|n|] == m[|n|];
    assert |m| < |n| ==> a[|m|] == n[|m|];
  }

  lemma ApartKey(n: string, m: string, r: string)
    requires Apart(n, m)
    ensures !(MeasPrefix(n) <= MeasKey(m, r))
  {
    PrefixCovers(n, m, r);
  }

  /** The prefix of one instrument covers no entry of another if and only if the two names are apart. */
  lemma PrefixesApartIff(n: string, m: string)
    ensures (forall r :: !(MeasPrefix(n) <= MeasKey(m, r))) <==> Apart(n, m)
  {
    if Apart(n, m) {
      forall r ensures !(MeasPrefix(n) <= MeasKey(m, r)) {
        ApartKey(n, m, r);
      }
    } else {
      var r := if n + ":" <= m + ":" then "" else (n + ":")[|m| + 1..];
      PrefixCovers(n, m, r);
      assert m + ":" <= n + ":" ==> m + ":" + (n + ":")[|m| + 1..] == n + ":";
      assert MeasPrefix(n) <= MeasKey(m, r);
    }
  }

  /** Invalidating one instrument changes an entry or not, exactly as its prefix covers the key. */
  lemma InvalidateEntry(meas: map<string, Meas>, n: string, k: string)
    requires k in meas
    ensures k in InvalidateSpec(meas, n)
    ensures InvalidateSpec(meas, n)[k] == if MeasPrefix(n) <= k then Meas(meas[k].value, STALE) else meas[k]
  {
    hide MeasPrefix;
  }

  /**
   * Invalidating one instrument leaves every entry of another as it is, in every store, if and only
   * if the two names are apart; names without colon always are.
   */
  lemma InvalidateIsolatedIff(n: string, m: string)
    ensures (forall meas: map<string, Meas>, r: string :: MeasKey(m, r) in meas ==>
               MeasKey(m, r) in InvalidateSpec(meas, n)
               && InvalidateSpec(meas, n)[MeasKey(m, r)] == meas[MeasKey(m, r)])
            <==> Apart(n, m)
  {
    PrefixesApartIff(n, m);
    hide MeasPrefix, MeasKey, InvalidateSpec, Apart;
    forall meas: map<string, Meas>, r: string | MeasKey(m, r) in meas
      ensures MeasKey(m, r) in InvalidateSpec(meas, n)
      ensures !(MeasPrefix(n) <= MeasKey(m, r)) ==> InvalidateSpec(meas, n)[MeasKey(m, r)] == meas[MeasKey(m, r)]
    {
      InvalidateEntry(meas, n, MeasKey(m, r));
    }
    if r :| MeasPrefix(n) <= MeasKey(m, r) {
      var meas := map[MeasKey(m, r) := Meas(None, "OK")];
      InvalidateEntry(meas, n, MeasKey(m, r));
      assert InvalidateSpec(meas, n)[MeasKey(m, r)] != meas[MeasKey(m, r)];
    }
  }

  /** A pair of names IADD accepts that are not apart: releasing `a` makes the entries of `a:b` STALE. */
  lemma ColonNamesOverlap()
    ensures !Apart("a", "a:b")
    ensures InvalidateSpec(map[MeasKey("a:b", "r") := Meas(Some("1"), "OK")], "a")[MeasKey("a:b", "r")].status == STALE
  {
    assert "a" + ":" == ("a:b" + ":")[..2];
    assert MeasPrefix("a") == "_meas:a:";
    assert MeasKey("a:b", "r") == "_meas:a:b:r";
    assert "_meas:a:b:r"[..|"_meas:a:"|] == "_meas:a:";
  }
}
