/**
 * The key-value and measurement store (testcore/store.py): insertion-ordered keys, read-only keys
 * owned by a session, and measurement entries addressed by instrument name and resource.
 */
module Store {
  import opened Wrappers
  import Glob

  type Session = nat

  /** A measurement entry; the timestamp is left out. */
  datatype Meas = Meas(value: Option<string>, status: string)

  const STALE: string := "STALE"

  /** The dictionaries of the store. `order` is the insertion order of `data`. */
  datatype Db = Db(order: seq<string>, data: map<string, string>, owners: map<string, Session>)

  const EMPTY_DB := Db([], map[], map[])

  predicate Reserved(key: string) {
    || "_sys:" <= key || "_drv:" <= key || "_inst:" <= key || "_sess:" <= key
    || "_lock:" <= key || "_watch:" <= key || "_meas:" <= key
  }

  /** `_check_owner` raises: the key is read-only for `who`. */
  predicate Foreign(db: Db, key: string, who: Option<Session>) {
    key in db.owners && Some(db.owners[key]) != who
  }

  predicate Untouchable(db: Db, key: string, who: Option<Session>) {
    Reserved(key) || Foreign(db, key, who)
  }

  // ---------------------------------------------------------------- specification

  function PutSpec(db: Db, key: string, value: string): Db {
    db.(order := if key in db.data then db.order else db.order + [key], data := db.data[key := value])
  }

  function Without(order: seq<string>, key: string): (r: seq<string>)
    ensures forall k :: k in r <==> k in order && k != key
  {
    if order == [] then []
    else if order[0] == key then Without(order[1..], key)
    else [order[0]] + Without(order[1..], key)
  }

  function Drop(db: Db, key: string): Db {
    Db(Without(db.order, key), db.data - {key}, db.owners - {key})
  }

  datatype SetReply = Refused | Unmet | Stored

  function SetSpec(db: Db, key: string, value: string, nx: bool, xx: bool, ro: bool, who: Option<Session>)
    : (SetReply, Db)
  {
    if Untouchable(db, key, who) then (Refused, db)
    else if (nx && key in db.data) || (xx && key !in db.data) then (Unmet, db)
    else
      var stored := PutSpec(db, key, value);
      if who.None? then (Stored, stored)
      else if ro then (Stored, stored.(owners := db.owners[key := who.value]))
      else if key in db.owners && db.owners[key] == who.value then (Stored, stored.(owners := db.owners - {key}))
      else (Stored, stored)
  }

  function PutAll(db: Db, pairs: seq<(string, string)>): Db
    decreases |pairs|
  {
    if pairs == [] then db else PutAll(PutSpec(db, pairs[0].0, pairs[0].1), pairs[1..])
  }

  function MSetSpec(db: Db, pairs: seq<(string, string)>, who: Option<Session>): (bool, Db) {
    if exists i :: 0 <= i < |pairs| && Untouchable(db, pairs[i].0, who) then (false, db)
    else (true, PutAll(db, pairs))
  }

  function DropAll(db: Db, keys: seq<string>): (nat, Db)
    decreases |keys|
  {
    if keys == [] then (0, db)
    else if keys[0] in db.data then
      var (n, rest) := DropAll(Drop(db, keys[0]), keys[1..]);
      (n + 1, rest)
    else DropAll(db, keys[1..])
  }

  function DeleteSpec(db: Db, keys: seq<string>, who: Option<Session>): (Option<nat>, Db) {
    if exists i :: 0 <= i < |keys| && Untouchable(db, keys[i], who) then (None, db)
    else
      var (n, rest) := DropAll(db, keys);
      (Some(n), rest)
  }

  /** FLUSHDB over the listed keys: own and unowned client keys go. */
  function FlushKeys(db: Db, keys: seq<string>, who: Option<Session>): Db
    decreases |keys|
  {
    if keys == [] then db
    else FlushKeys(if Untouchable(db, keys[0], who) then db else Drop(db, keys[0]), keys[1..], who)
  }

  function ReleaseSpec(db: Db, session: Session): Db {
    db.(owners := map k | k in db.owners && db.owners[k] != session :: db.owners[k])
  }

  function Filter(p: string -> bool, keys: seq<string>): seq<string> {
    if keys == [] then []
    else if p(keys[0]) then [keys[0]] + Filter(p, keys[1..])
    else Filter(p, keys[1..])
  }

  /** KEYS: client keys that match, in insertion order. */
  function KeysSpec(db: Db, pattern: string): seq<string> {
    Filter(k => !Reserved(k) && Glob.Match(k, pattern), db.order)
  }

  lemma {:induction false} FilterSnoc(p: string -> bool, keys: seq<string>, k: string)
    ensures Filter(p, keys + [k]) == Filter(p, keys) + if p(k) then [k] else []
  {
    if keys != [] {
      FilterSnoc(p, keys[1..], k);
      assert (keys + [k])[1..] == keys[1..] + [k];
    }
  }

  // ---------------------------------------------------------------- measurements

  function MeasPrefix(instrument: string): string {
    "_meas:" + instrument + ":"
  }

  function MeasKey(instrument: string, resource: string): string {
    MeasPrefix(instrument) + resource
  }

  function WriteMeasSpec(meas: map<string, Meas>, instrument: string, resource: string, value: Option<string>,
          status: string)
    : map<string, Meas>
  {
    meas[MeasKey(instrument, resource) := Meas(value, status)]
  }

  /** All entries whose key starts with the instrument's prefix become STALE, values kept. */
  function InvalidateSpec(meas: map<string, Meas>, instrument: string): (r: map<string, Meas>) {
    map k | k in meas :: if MeasPrefix(instrument) <= k then meas[k].(status := STALE) else meas[k]
  }

  // ---------------------------------------------------------------- the store object

  class KeyValueStore {
    var order: seq<string>
    var data: map<string, string>
    var owners: map<string, Session>
    var meas: map<string, Meas>

    constructor ()
      ensures Contents() == EMPTY_DB && meas == map[]
    {
      order, data, owners, meas := [], map[], map[], map[];
    }

    function Contents(): Db
      reads this
    {
      Db(order, data, owners)
    }

    method Put(key: string, value: string)
      modifies this`order, this`data
      ensures Contents() == PutSpec(old(Contents()), key, value)
    {
      if key !in data {
        order := order + [key];
      }
      data := data[key := value];
    }

    method Set(key: string, value: string, nx: bool, xx: bool, ro: bool, who: Option<Session>) returns (r: SetReply)
      modifies this
      ensures (r, Contents()) == SetSpec(old(Contents()), key, value, nx, xx, ro, who)
      ensures meas == old(meas)
    {
      if Reserved(key) || Foreign(Contents(), key, who) {
        return Refused;
      }
      var present := key in data;
      if nx && present {
        return Unmet;
      }
      if xx && !present {
        return Unmet;
      }
      Put(key, value);
      if ro && who.Some? {
        owners := owners[key := who.value];
      } else if owners != map[] && !ro && who.Some? {
        if key in owners && owners[key] == who.value {
          owners := owners - {key};
        }
      }
      r := Stored;
    }

    /** All keys are checked before any is written. */
    method MSet(pairs: seq<(string, string)>, who: Option<Session>) returns (ok: bool)
      modifies this
      ensures (ok, Contents()) == MSetSpec(old(Contents()), pairs, who)
      ensures meas == old(meas)
    {
      hide Untouchable, PutSpec;
      for i := 0 to |pairs|
        invariant Contents() == old(Contents()) && meas == old(meas)
        invariant forall j :: 0 <= j < i ==> !Untouchable(Contents(), pairs[j].0, who)
      {
        if Untouchable(Contents(), pairs[i].0, who) {
          return false;
        }
      }
      for i := 0 to |pairs|
        invariant PutAll(Contents(), pairs[i..]) == PutAll(old(Contents()), pairs)
        invariant meas == old(meas)
      {
        assert pairs[i..][1..] == pairs[i + 1..];
        Put(pairs[i].0, pairs[i].1);
      }
      ok := true;
    }

    /** All keys are checked before any is removed; `None` is the refusal. */
    method Delete(keys: seq<string>, who: Option<Session>) returns (count: Option<nat>)
      modifies this
      ensures (count, Contents()) == DeleteSpec(old(Contents()), keys, who)
      ensures meas == old(meas)
    {
      hide Untouchable;
      for i := 0 to |keys|
        invariant Contents() == old(Contents()) && meas == old(meas)
        invariant forall j :: 0 <= j < i ==> !Untouchable(Contents(), keys[j], who)
      {
        if Untouchable(Contents(), keys[i], who) {
          return None;
        }
      }
      var n := 0;
      for i := 0 to |keys|
        invariant meas == old(meas)
        invariant var (rest, final) := DropAll(Contents(), keys[i..]);
                  DropAll(old(Contents()), keys) == (n + rest, final)
      {
        assert keys[i..][1..] == keys[i + 1..];
        if keys[i] in data {
          order, data, owners := Without(order, keys[i]), data - {keys[i]}, owners - {keys[i]};
          n := n + 1;
        }
      }
      count := Some(n);
    }

    method FlushDb(who: Option<Session>)
      modifies this
      ensures Contents() == FlushKeys(old(Contents()), old(order), who)
      ensures meas == old(meas)
    {
      var keys := order;
      for i := 0 to |keys|
        invariant meas == old(meas)
        invariant FlushKeys(Contents(), keys[i..], who) == FlushKeys(old(Contents()), keys, who)
      {
        assert keys[i..][1..] == keys[i + 1..];
        if !Reserved(keys[i]) && !Foreign(Contents(), keys[i], who) {
          order, data, owners := Without(order, keys[i]), data - {keys[i]}, owners - {keys[i]};
        }
      }
    }

    method ReleaseOwner(session: Session)
      modifies this`owners
      ensures Contents() == ReleaseSpec(old(Contents()), session)
    {
      var pending := set k | k in owners && owners[k] == session;
      while pending != {}
        invariant pending <= owners.Keys && forall k :: k in pending ==> owners[k] == session
        invariant forall k :: k in owners ==> k in old(owners) && owners[k] == old(owners)[k]
        invariant forall k :: k in old(owners) && old(owners)[k] != session ==> k in owners
        invariant forall k :: k in owners && owners[k] == session ==> k in pending
        decreases pending
      {
        var k :| k in pending;
        owners := owners - {k};
        pending := pending - {k};
      }
    }

    /** `keys`: everything, a prefix test, or the general matcher, by the shape of the pattern. */
    method Keys(pattern: string) returns (r: seq<string>)
      ensures r == KeysSpec(Contents(), pattern)
    {
      hide Glob.Match, Reserved;
      var test := (k: string) => !Reserved(k) && Glob.Match(k, pattern);
      r := [];
      for i := 0 to |order|
        invariant r == Filter(test, order[..i])
      {
        var k := order[i];
        FilterSnoc(test, order[..i], k);
        assert order[..i + 1] == order[..i] + [k];
        var hit;
        if pattern == "*" {
          Glob.StarMatchesAll(k);
          hit := true;
        } else if Glob.IsPrefixPattern(pattern) {
          Glob.PrefixPatternMatches(k, pattern);
          hit := pattern[..|pattern| - 1] <= k;
        } else {
          hit := Glob.Match(k, pattern);
        }
        if !Reserved(k) && hit {
          r := r + [k];
        }
      }
      assert order[..|order|] == order;
    }

    method WriteMeas(instrument: string, resource: string, value: Option<string>, status: string)
      modifies this`meas
      ensures meas == WriteMeasSpec(old(meas), instrument, resource, value, status) && Contents() == old(Contents())
    {
      meas := meas[MeasKey(instrument, resource) := Meas(value, status)];
    }

    /** `invalidate_meas`; returns the resources that were not STALE before. */
    method InvalidateMeas(instrument: string) returns (changed: set<string>)
      modifies this`meas
      ensures meas == InvalidateSpec(old(meas), instrument) && Contents() == old(Contents())
      ensures changed ==
                set k | k in old(meas) && MeasPrefix(instrument) <= k && old(meas)[k].status != STALE ::
                  k[|MeasPrefix(instrument)|..]
    {
      var prefix := MeasPrefix(instrument);
      var pending := meas.Keys;
      ghost var entries := meas;
      ghost var touched: set<string> := {};
      changed := {};
      while pending != {}
        invariant pending <= entries.Keys == meas.Keys
        invariant forall k :: k in pending ==> meas[k] == entries[k]
        invariant forall k :: k in meas && k !in pending ==> meas[k] == InvalidateSpec(entries, instrument)[k]
        invariant touched == set k | k in entries && k !in pending && prefix <= k && entries[k].status != STALE
        invariant changed == set k | k in touched :: k[|prefix|..]
        decreases pending
      {
        var k :| k in pending;
        pending := pending - {k};
        if prefix <= k && meas[k].status != STALE {
          meas := meas[k := meas[k].(status := STALE)];
          changed := changed + {k[|prefix|..]};
          touched := touched + {k};
        }
      }
    }
  }
}
