/**
 * The event bus (testcore/events.py): channels with a glob filter behind the base name, who gets an
 * event, and the subscribe and unsubscribe commands (testcore/commands.py).
 */
module Events {
  import opened Wrappers
  import Glob
  import opened Text

  type Handler = nat

  const VALID_CHANNELS: set<string> := {"watch", "instrument", "lock", "session", "kv", "meas"}

  // ---------------------------------------------------------------- channels

  /** Base and filter of a channel, by its first colon. */
  function ParseChannel(channel: string): (string, Option<string>) {
    var c := FindColon(channel, 0);
    if channel[..c] !in VALID_CHANNELS then (channel, None)
    else (channel[..c], if c < |channel| then Some(channel[c + 1..]) else None)
  }

  predicate IsValidChannel(channel: string) {
    ParseChannel(channel).0 in VALID_CHANNELS
  }

  /** What the loop over the bases does with one of them. */
  function Try(base: string, channel: string): Option<(string, Option<string>)> {
    if channel == base then Some((base, None))
    else if base + ":" <= channel then Some((base, Some(channel[|base| + 1..])))
    else None
  }

  /** A base fits exactly the channels that parse to it. */
  lemma TryFits(base: string, channel: string)
    requires base in VALID_CHANNELS
    ensures Try(base, channel) == if ParseChannel(channel).0 == base then Some(ParseChannel(channel)) else None
  {
    assert ':' !in base;
    var c := FindColon(channel, 0);
    assert channel[..c] == base && c < |channel| ==> channel[..c + 1] == base + ":";
    assert channel[..c] == base && c == |channel| ==> channel == base;
    if channel == base {
      assert channel[..c] == channel;
    } else if base + ":" <= channel {
      assert channel[..|base| + 1] == base + ":";
      assert channel[|base|] == ':' && channel[..|base|] == base;
      assert forall j :: 0 <= j < |base| ==> channel[j] == base[j];
      assert c == |base|;
    }
  }

  /** The channels that can be subscribed to: six bases, each alone or with a filter behind a colon. */
  lemma ValidChannelIff(channel: string)
    ensures IsValidChannel(channel) <==>
              exists base :: base in {"watch", "instrument", "lock", "session", "kv", "meas"}
                             && (channel == base || base + ":" <= channel)
  {
    hide ParseChannel;
    forall base | base in VALID_CHANNELS
      ensures ParseChannel(channel).0 == base <==> channel == base || base + ":" <= channel
    {
      TryFits(base, channel);
    }
  }

  /** The bases tried in the order given. */
  function ParseInOrder(bases: seq<string>, channel: string): (string, Option<string>) {
    if bases == [] then (channel, None)
    else if Try(bases[0], channel).Some? then Try(bases[0], channel).value
    else ParseInOrder(bases[1..], channel)
  }

  /** Whatever the iteration order of the set, parsing gives the same result. */
  lemma {:induction false} OrderIrrelevant(bases: seq<string>, channel: string)
    requires forall base :: base in VALID_CHANNELS ==> base in bases
    requires forall base :: base in bases ==> base in VALID_CHANNELS
    ensures ParseInOrder(bases, channel) == ParseChannel(channel)
  {
    OrderPrefix(bases, channel, |bases|);
  }

  lemma {:induction false} OrderPrefix(bases: seq<string>, channel: string, n: nat)
    requires n == |bases| && forall base :: base in bases ==> base in VALID_CHANNELS
    ensures ParseInOrder(bases, channel) ==
              if ParseChannel(channel).0 in bases then ParseChannel(channel) else (channel, None)
    ensures ParseChannel(channel).0 !in VALID_CHANNELS ==> ParseInOrder(bases, channel) == ParseChannel(channel)
    decreases n
  {
    hide Try, ParseChannel;
    InvalidParse(channel);
    if bases != [] {
      TryFits(bases[0], channel);
      OrderPrefix(bases[1..], channel, n - 1);
    }
  }

  lemma InvalidParse(channel: string)
    ensures ParseChannel(channel).0 !in VALID_CHANNELS ==> ParseChannel(channel) == (channel, None)
  {
  }

  /** The loop, taking the bases in any order. */
  method Parse(channel: string) returns (r: (string, Option<string>))
    ensures r == ParseChannel(channel)
  {
    hide Try, ParseChannel;
    InvalidParse(channel);
    var pending := VALID_CHANNELS;
    while pending != {}
      invariant pending <= VALID_CHANNELS
      invariant ParseChannel(channel).0 in VALID_CHANNELS ==> ParseChannel(channel).0 in pending
      decreases pending
    {
      var base :| base in pending;
      TryFits(base, channel);
      var hit := Try(base, channel);
      if hit.Some? {
        return hit.value;
      }
      pending := pending - {base};
    }
    r := (channel, None);
  }

  // ---------------------------------------------------------------- the bus

  datatype Subscription = Subscription(handler: Handler, pattern: Option<string>, spec: string)

  /** The subscription of `h` to `channel`. */
  function Sub(h: Handler, channel: string): Subscription {
    Subscription(h, ParseChannel(channel).1, channel)
  }

  /** An event with key `key` passes the subscription's filter. */
  predicate Admits(sub: Subscription, key: Option<string>) {
    sub.pattern.Some? && key.Some? ==> Glob.Match(key.value, sub.pattern.value)
  }

  /**
   * A subscription to channel `c` hears an event with key `key` published on `base`: the bare channel hears
   * everything, and one with a filter the events without key and those whose key the filter matches.
   */
  predicate Hears(c: string, base: string, key: Option<string>) {
    c == base || (base + ":" <= c && (key.Some? ==> Glob.Match(key.value, c[|base| + 1..])))
  }

  lemma AdmitsIsHears(h: Handler, c: string, base: string, key: Option<string>)
    requires base in VALID_CHANNELS
    ensures ParseChannel(c).0 == base ==> (Admits(Sub(h, c), key) <==> Hears(c, base, key))
    ensures Hears(c, base, key) ==> ParseChannel(c).0 == base
  {
    TryFits(base, c);
    hide ParseChannel, Glob.Match;
  }

  /** A filter that ends in its only special character, `*`, lets the keys with that prefix through. */
  lemma PrefixFilter(base: string, prefix: string, k: string)
    requires '*' !in prefix && '?' !in prefix && '[' !in prefix
    ensures Hears(base + ":" + prefix + "*", base, Some(k)) <==> prefix <= k
  {
    var c, p := base + ":" + prefix + "*", prefix + "*";
    assert c == base + ":" + p && c[|base| + 1..] == p;
    assert p[..|p| - 1] == prefix;
    Glob.PrefixPatternMatches(k, p);
    assert |c| != |base| && c[..|base| + 1] == base + ":";
  }

  /** A filter without special characters lets exactly its own key through. */
  lemma ExactFilter(base: string, name: string, k: string)
    requires '*' !in name && '?' !in name && ']' !in name
    ensures Hears(base + ":" + name, base, Some(k)) <==> k == name
  {
    var c := base + ":" + name;
    assert c[|base| + 1..] == name && |c| != |base| && c[..|base| + 1] == base + ":";
    Glob.ExactPattern(k, name);
  }

  /** The subscriptions are to channels with this base, and carry the filters of their channels. */
  ghost predicate StoredUnder(base: string, subs: set<Subscription>) {
    forall sub :: sub in subs ==> ParseChannel(sub.spec).0 == base && sub == Sub(sub.handler, sub.spec)
  }

  /** `h` is subscribed to `channel` in the table. */
  predicate Holds(table: map<string, set<Subscription>>, h: Handler, channel: string) {
    ParseChannel(channel).0 in table && Sub(h, channel) in table[ParseChannel(channel).0]
  }

  function Except(subs: set<Subscription>, h: Handler): set<Subscription> {
    set sub | sub in subs && sub.handler != h
  }

  /** The table without the subscriptions of `h`, except those under the bases in `pending`. */
  function Cleared(table: map<string, set<Subscription>>, pending: set<string>, h: Handler)
    : map<string, set<Subscription>>
  {
    map base | base in table :: if base in pending then table[base] else Except(table[base], h)
  }

  lemma ClearedHolds(table: map<string, set<Subscription>>, h: Handler)
    ensures forall g, c :: Holds(Cleared(table, {}, h), g, c) <==> Holds(table, g, c) && g != h
  {
    hide ParseChannel;
  }

  lemma ClearedNone(table: map<string, set<Subscription>>, h: Handler)
    ensures Cleared(table, table.Keys, h) == table
  {
  }

  lemma ClearedAt(table: map<string, set<Subscription>>, pending: set<string>, base: string, h: Handler)
    requires base in pending && pending <= table.Keys
    ensures base in Cleared(table, pending, h) && Cleared(table, pending, h)[base] == table[base]
  {
  }

  lemma ClearedNext(table: map<string, set<Subscription>>, pending: set<string>, base: string, h: Handler)
    requires base in table
    ensures Cleared(table, pending, h)[base := Except(table[base], h)] == Cleared(table, pending - {base}, h)
  {
    hide Except;
  }

  lemma HoldsUnder(a: map<string, set<Subscription>>, b: map<string, set<Subscription>>, base: string, h: Handler)
    requires base in a && base in b && a[base] == b[base]
    ensures forall c :: ParseChannel(c).0 == base ==> (Holds(a, h, c) <==> Holds(b, h, c))
  {
    hide ParseChannel;
  }

  lemma HoldsHasBase(table: map<string, set<Subscription>>, h: Handler)
    ensures forall c :: Holds(table, h, c) ==> ParseChannel(c).0 in table
  {
    hide ParseChannel;
  }

  lemma AppendDistinct(a: seq<string>, b: seq<string>)
    requires |a| == |SetOf(a)| && |b| == |SetOf(b)| && forall c :: c in a ==> c !in b
    ensures |a + b| == |SetOf(a + b)|
  {
    assert SetOf(a + b) == SetOf(a) + SetOf(b);
  }

  class EventBus {
    var subscriptions: map<string, set<Subscription>>

    constructor ()
      ensures Valid() && subscriptions == map[]
    {
      subscriptions := map[];
    }

    /** Every subscription is stored under the base of its own channel, with that channel's filter. */
    ghost predicate Valid()
      reads this
    {
      forall base :: base in subscriptions ==> base in VALID_CHANNELS && StoredUnder(base, subscriptions[base])
    }

    /** Who is subscribed to what. */
    ghost predicate Subscribed(h: Handler, channel: string)
      reads this
    {
      Holds(subscriptions, h, channel)
    }

    function Under(base: string): set<Subscription>
      reads this
    {
      if base in subscriptions then subscriptions[base] else {}
    }

    method Subscribe(h: Handler, channel: string) returns (added: bool)
      requires Valid()
      modifies this
      ensures Valid()
      ensures added <==> IsValidChannel(channel) && !old(Subscribed(h, channel))
      ensures forall g, c :: Subscribed(g, c) <==>
                old(Subscribed(g, c)) || (g == h && c == channel && IsValidChannel(channel))
    {
      var (base, pattern) := ParseChannel(channel);
      if base !in VALID_CHANNELS {
        return false;
      }
      if base !in subscriptions {
        subscriptions := subscriptions[base := {}];
      }
      var sub := Subscription(h, pattern, channel);
      assert sub == Sub(h, channel);
      hide ParseChannel;
      if sub in subscriptions[base] {
        return false;
      }
      subscriptions := subscriptions[base := subscriptions[base] + {sub}];
      added := true;
    }

    method Unsubscribe(h: Handler, channel: string) returns (removed: bool)
      requires Valid()
      modifies this
      ensures Valid()
      ensures removed <==> old(Subscribed(h, channel))
      ensures forall g, c :: Subscribed(g, c) <==> old(Subscribed(g, c)) && !(g == h && c == channel)
    {
      var (base, pattern) := ParseChannel(channel);
      if base !in subscriptions || subscriptions[base] == {} {
        return false;
      }
      var sub := Subscription(h, pattern, channel);
      assert sub == Sub(h, channel);
      hide ParseChannel;
      if sub !in subscriptions[base] {
        return false;
      }
      subscriptions := subscriptions[base := subscriptions[base] - {sub}];
      removed := true;
    }

    /** A handler is stored once per channel, under one base. */
    lemma StoredOnce(base: string, sub: Subscription, base': string, sub': Subscription)
      requires Valid() && base in subscriptions && sub in subscriptions[base]
      requires base' in subscriptions && sub' in subscriptions[base']
      requires sub.handler == sub'.handler && sub.spec == sub'.spec
      ensures base == base' && sub == sub'
    {
      hide ParseChannel;
      assert StoredUnder(base, subscriptions[base]) && StoredUnder(base', subscriptions[base']);
    }

    /** The channels of `h`. */
    ghost function Channels(h: Handler): set<string>
      reads this
    {
      set base, sub | base in subscriptions && sub in subscriptions[base] && sub.handler == h :: sub.spec
    }

    lemma ChannelsAre(h: Handler)
      requires Valid()
      ensures forall c :: c in Channels(h) <==> Subscribed(h, c)
    {
      hide ParseChannel;
      forall c | Subscribed(h, c) ensures c in Channels(h) {
        var base := ParseChannel(c).0;
        assert Sub(h, c) in subscriptions[base] && Sub(h, c).spec == c;
      }
    }

    /** `subscriber_channels`: every channel of `h`, each once. */
    method SubscriberChannels(h: Handler) returns (r: seq<string>)
      requires Valid()
      ensures |r| == |Channels(h)| && forall c :: c in r <==> Subscribed(h, c)
    {
      hide ParseChannel;
      r := [];
      ghost var found: set<string> := {};
      var bases := subscriptions.Keys;
      while bases != {}
        invariant bases <= subscriptions.Keys
        invariant |r| == |found| && forall c :: c in r <==> c in found
        invariant forall c :: c in found <==> Subscribed(h, c) && ParseChannel(c).0 !in bases
        decreases bases
      {
        var base :| base in bases;
        var more := ChannelsUnder(base, h);
        r := r + more;
        found := found + set c | c in more;
        bases := bases - {base};
      }
      ChannelsAre(h);
      assert found == Channels(h);
    }

    method ChannelsUnder(base: string, h: Handler) returns (r: seq<string>)
      requires Valid() && base in subscriptions
      ensures |r| == |set c | c in r| && forall c :: c in r <==> Subscribed(h, c) && ParseChannel(c).0 == base
    {
      hide ParseChannel;
      r := [];
      ghost var found: set<string> := {};
      var subs := subscriptions[base];
      while subs != {}
        invariant subs <= subscriptions[base]
        invariant |r| == |found| && forall c :: c in r <==> c in found
        invariant forall c :: c in found <==>
                    Sub(h, c) in subscriptions[base] && ParseChannel(c).0 == base && Sub(h, c) !in subs
        decreases subs
      {
        var sub :| sub in subs;
        if sub.handler == h {
          r := r + [sub.spec];
          found := found + {sub.spec};
        }
        subs := subs - {sub};
      }
      assert found == set c | c in r;
    }

    /** The subscriptions of `h` under one base are removed and their channels returned. */
    method RemoveUnder(base: string, h: Handler) returns (r: seq<string>)
      requires Valid() && base in subscriptions
      modifies this
      ensures Valid()
      ensures subscriptions == old(subscriptions)[base := Except(old(subscriptions)[base], h)]
      ensures |r| == |SetOf(r)|
      ensures forall c :: c in r <==> Holds(old(subscriptions), h, c) && ParseChannel(c).0 == base
    {
      hide ParseChannel;
      r := ChannelsUnder(base, h);
      assert SetOf(r) == set c | c in r;
      subscriptions := subscriptions[base := Except(subscriptions[base], h)];
    }

    /** The loop of `unsubscribe_all`, taking the bases in any order. */
    method RemoveAll(h: Handler) returns (removed: seq<string>)
      requires Valid()
      modifies this
      ensures Valid() && subscriptions == Cleared(old(subscriptions), {}, h)
      ensures |removed| == |SetOf(removed)|
      ensures forall c :: c in removed <==> Holds(old(subscriptions), h, c)
    {
      hide ParseChannel, Except, Holds, Valid, Cleared;
      removed := [];
      ghost var was := subscriptions;
      var bases := subscriptions.Keys;
      ClearedNone(was, h);
      HoldsHasBase(was, h);
      while bases != {}
        invariant Valid() && bases <= was.Keys && subscriptions == Cleared(was, bases, h)
        invariant |removed| == |SetOf(removed)|
        invariant forall c :: c in removed <==> Holds(was, h, c) && ParseChannel(c).0 !in bases
        decreases bases
      {
        var base :| base in bases;
        ClearedAt(was, bases, base, h);
        HoldsUnder(was, subscriptions, base, h);
        var more := RemoveUnder(base, h);
        AppendDistinct(removed, more);
        removed := removed + more;
        ClearedNext(was, bases, base, h);
        bases := bases - {base};
      }
    }

    /** `unsubscribe_all`, when the handler disconnects; every channel it had is returned once. */
    method UnsubscribeAll(h: Handler) returns (removed: seq<string>)
      requires Valid()
      modifies this
      ensures Valid()
      ensures forall g, c :: Subscribed(g, c) <==> old(Subscribed(g, c)) && g != h
      ensures |removed| == |old(Channels(h))| && SetOf(removed) == old(Channels(h))
    {
      ChannelsAre(h);
      ghost var was, channels := subscriptions, Channels(h);
      hide ParseChannel, Channels, Cleared;
      removed := RemoveAll(h);
      assert SetOf(removed) == channels;
      ClearedHolds(was, h);
    }

    /**
     * `publish`: `failing` are the subscriptions whose handler cannot be written to. One write per
     * subscription that admits the key; the result counts those that worked, and only the others
     * are removed. `change` is a subscription and the set that other tasks make of the subscribers
     * while it is written to; a set of another size makes the iteration raise.
     */
    method Publish(channel: string, key: Option<string>, failing: set<Subscription>,
                   change: Option<(Subscription, set<Subscription>)>)
      returns (raised: bool, delivered: nat, ghost written: set<Subscription>)
      requires Valid()
      requires change.Some? ==> StoredUnder(channel, change.value.1) && |change.value.1| != |Under(channel)|
      modifies this
      ensures Valid()
      ensures raised <==> change.Some? && change.value.0 in Reached(old(Under(channel)), key)
      ensures !raised ==>
                && written == Reached(old(Under(channel)), key) - failing
                && Under(channel) == old(Under(channel)) - Reached(old(Under(channel)), key) * failing
      ensures raised ==>
                && written <= Reached(old(Under(channel)), key) - failing
                && Under(channel) == change.value.1
      ensures delivered == |written|
      ensures !raised && channel in VALID_CHANNELS ==> HeardBy(old(subscriptions), channel, key, failing, written)
      ensures forall base :: base != channel ==> Under(base) == old(Under(base))
    {
      hide Admits, ParseChannel, HeardBy;
      ReachedIsHeard(subscriptions, channel, key, failing);
      raised, delivered, written := false, 0, {};
      if channel !in subscriptions || subscriptions[channel] == {} {
        return;
      }
      var dead;
      raised, delivered, dead, written := Deliver(subscriptions[channel], key, failing,
                                                  if change.Some? then Some(change.value.0) else None);
      if raised {
        subscriptions := subscriptions[channel := change.value.1];
        return;
      }
      if dead != {} {
        subscriptions := subscriptions[channel := subscriptions[channel] - dead];
      }
      assert subscriptions[channel] == old(subscriptions)[channel] - dead;
    }
  }

  /** The subscriptions that an event with this key goes to. */
  function Reached(subs: set<Subscription>, key: Option<string>): set<Subscription> {
    set sub | sub in subs && Admits(sub, key)
  }

  /** Written to are exactly those who are subscribed to a channel that hears the event and can be written to. */
  ghost predicate HeardBy(table: map<string, set<Subscription>>, base: string, key: Option<string>,
                          failing: set<Subscription>, written: set<Subscription>) {
    forall h, c :: Sub(h, c) in written <==> Holds(table, h, c) && Hears(c, base, key) && Sub(h, c) !in failing
  }

  lemma ReachedIsHeard(table: map<string, set<Subscription>>, base: string, key: Option<string>,
                       failing: set<Subscription>)
    requires forall b :: b in table ==> StoredUnder(b, table[b])
    ensures base in VALID_CHANNELS ==>
              && (base in table ==> HeardBy(table, base, key, failing, Reached(table[base], key) - failing))
              && (base in table && table[base] == {} ==> HeardBy(table, base, key, failing, {}))
              && (base !in table ==> HeardBy(table, base, key, failing, {}))
  {
    hide ParseChannel, Admits, Hears;
    if base in VALID_CHANNELS {
      forall h, c ensures Holds(table, h, c) && Hears(c, base, key) <==>
                            base in table && Sub(h, c) in Reached(table[base], key)
      {
        AdmitsIsHears(h, c, base, key);
        assert Sub(h, c).spec == c;
      }
      assert base in table && table[base] == {} ==> Reached(table[base], key) == {};
    }
  }

  /** The loop over the subscribers, in any order; it ends behind the write to `last`. */
  method Deliver(subs: set<Subscription>, key: Option<string>, failing: set<Subscription>, last: Option<Subscription>)
    returns (raised: bool, delivered: nat, dead: set<Subscription>, ghost written: set<Subscription>)
    ensures raised <==> last.Some? && last.value in Reached(subs, key)
    ensures written <= Reached(subs, key) - failing
    ensures !raised ==> written == Reached(subs, key) - failing && dead == Reached(subs, key) * failing
    ensures delivered == |written|
  {
    hide Admits, Reached, Delivered;
    raised, delivered, dead, written := false, 0, {}, {};
    var pending := subs;
    DeliverStart(subs, key, failing);
    while pending != {}
      invariant pending <= subs && !raised && Delivered(subs, pending, key, failing, written, dead)
      invariant delivered == |written|
      invariant last.Some? && last.value in Reached(subs, key) ==> last.value in pending
      decreases pending
    {
      var sub :| sub in pending;
      DeliverStep(subs, pending, sub, key, failing, written, dead);
      pending := pending - {sub};
      if Admits(sub, key) {
        if sub in failing {
          dead := dead + {sub};
        } else {
          delivered, written := delivered + 1, written + {sub};
        }
        if last == Some(sub) {
          raised := true;
          break;
        }
      }
    }
    DeliverEnd(subs, pending, key, failing, written, dead);
  }

  /** What the loop has done when `pending` is left. */
  ghost predicate Delivered(subs: set<Subscription>, pending: set<Subscription>, key: Option<string>,
                            failing: set<Subscription>, written: set<Subscription>, dead: set<Subscription>) {
    written == Reached(subs - pending, key) - failing && dead == Reached(subs - pending, key) * failing
  }

  lemma DeliverStart(subs: set<Subscription>, key: Option<string>, failing: set<Subscription>)
    ensures Delivered(subs, subs, key, failing, {}, {})
    ensures forall sub :: sub in Reached(subs, key) ==> sub in subs
  {
    assert Reached(subs - subs, key) == {};
  }

  lemma DeliverStep(subs: set<Subscription>, pending: set<Subscription>, sub: Subscription, key: Option<string>,
                    failing: set<Subscription>, written: set<Subscription>, dead: set<Subscription>)
    requires sub in pending && pending <= subs && Delivered(subs, pending, key, failing, written, dead)
    ensures sub !in written && (sub in Reached(subs, key) <==> Admits(sub, key))
    ensures Delivered(subs, pending - {sub}, key, failing,
                      if Admits(sub, key) && sub !in failing then written + {sub} else written,
                      if Admits(sub, key) && sub in failing then dead + {sub} else dead)
  {
    hide Admits;
    assert subs - (pending - {sub}) == subs - pending + {sub};
    assert Reached(subs - pending + {sub}, key)
           == Reached(subs - pending, key) + if Admits(sub, key) then {sub} else {};
  }

  lemma DeliverEnd(subs: set<Subscription>, pending: set<Subscription>, key: Option<string>, failing: set<Subscription>,
                   written: set<Subscription>, dead: set<Subscription>)
    requires Delivered(subs, pending, key, failing, written, dead)
    ensures written <= Reached(subs, key) - failing
    ensures pending == {} ==> written == Reached(subs, key) - failing && dead == Reached(subs, key) * failing
  {
    hide Admits;
    assert subs - {} == subs;
  }

  // ---------------------------------------------------------------- SUBSCRIBE and UNSUBSCRIBE

  /** Channels and counts of an UNSUBSCRIBE reply. */
  datatype Notice = Notice(channel: Option<string>, remaining: nat)

  /** The notices for the names, in order, when `all` are the client's channels. */
  function Notices(all: set<string>, names: seq<string>): (r: seq<Notice>)
    ensures |r| == |names|
  {
    if names == [] then []
    else [Notice(Some(names[0]), |all - {names[0]}|)] + Notices(all - {names[0]}, names[1..])
  }

  /** The notices of SUBSCRIBE: for every name the number of channels the client has by then. */
  function Totals(all: set<string>, names: seq<string>): (r: seq<Notice>)
    ensures |r| == |names|
    decreases |names|
  {
    if names == [] then []
    else [Notice(Some(names[0]), |all + {names[0]}|)] + Totals(all + {names[0]}, names[1..])
  }

  /** Every total counts each channel once, however often it was named before. */
  lemma {:induction false} TotalsCount(all: set<string>, names: seq<string>, i: nat)
    requires i < |names|
    ensures Totals(all, names)[i] == Notice(Some(names[i]), |all + SetOf(names[..i + 1])|)
    decreases i
  {
    if i == 0 {
      assert SetOf(names[..1]) == {names[0]};
    } else {
      TotalsCount(all + {names[0]}, names[1..], i - 1);
      assert names[..i + 1] == [names[0]] + names[1..][..i];
      assert all + SetOf(names[..i + 1]) == all + {names[0]} + SetOf(names[1..][..i]);
    }
  }

  lemma TotalsStep(all: set<string>, names: seq<string>, i: nat, totals: seq<Notice>)
    requires i < |names|
    ensures totals + Totals(all, names[i..])
            == totals + [Notice(Some(names[i]), |all + {names[i]}|)] + Totals(all + {names[i]}, names[i + 1..])
  {
    assert names[i..][1..] == names[i + 1..];
  }

  lemma TotalsEnd(all: set<string>, names: seq<string>, totals: seq<Notice>)
    ensures totals + Totals(all, names[|names|..]) == totals
  {
  }

  /** How many of the names come before the first invalid one. */
  function ValidCount(names: seq<string>): (n: nat)
    ensures n <= |names| && (n < |names| ==> !IsValidChannel(names[n]))
    ensures forall c :: c in names[..n] ==> IsValidChannel(c)
  {
    if names == [] || !IsValidChannel(names[0]) then 0 else 1 + ValidCount(names[1..])
  }

  datatype SubscribeReply =
    | Subscribed(totals: seq<Notice>)
    | InMonitorMode
    | NoArguments
    | InvalidChannel(channel: string)

  /** The channels left when the names are gone. */
  function Left(all: set<string>, names: seq<string>): (r: set<string>)
    ensures r == all - SetOf(names)
  {
    if names == [] then all else Left(all - {names[0]}, names[1..])
  }

  lemma NoticesStep(all: set<string>, names: seq<string>, i: nat, notices: seq<Notice>)
    requires i < |names|
    ensures notices + Notices(all, names[i..])
            == notices + [Notice(Some(names[i]), |all - {names[i]}|)] + Notices(all - {names[i]}, names[i + 1..])
    ensures Left(all, names[i..]) == Left(all - {names[i]}, names[i + 1..])
  {
    assert names[i..][1..] == names[i + 1..];
  }

  lemma NoticesEnd(all: set<string>, names: seq<string>, notices: seq<Notice>)
    ensures notices + Notices(all, names[|names|..]) == notices && Left(all, names[|names|..]) == all
  {
  }

  /** The state of one client connection that the two commands touch. */
  class Client {
    const handler: Handler
    const bus: EventBus
    var subscribing: bool
    var monitoring: bool

    constructor (handler: Handler, bus: EventBus)
      ensures this.handler == handler && this.bus == bus && !subscribing && !monitoring
    {
      this.handler, this.bus, subscribing, monitoring := handler, bus, false, false;
    }

    /** Nobody else's subscriptions have changed. */
    twostate predicate OthersKept()
      reads bus
    {
      forall g, c :: g != handler ==> (bus.Subscribed(g, c) <==> old(bus.Subscribed(g, c)))
    }

    /**
     * SUBSCRIBE: the channels before the first invalid one are subscribed even when the reply is an
     * error, and subscriber mode is entered only when there is none. A channel that was subscribed
     * before counts once.
     */
    method HandleSubscribe(args: seq<string>) returns (reply: SubscribeReply)
      requires bus.Valid()
      modifies this`subscribing, bus
      ensures bus.Valid() && OthersKept()
      ensures reply ==
                if monitoring then InMonitorMode
                else if args == [] then NoArguments
                else if ValidCount(args) < |args| then InvalidChannel(args[ValidCount(args)])
                else SubscribeReply.Subscribed(Totals(old(bus.Channels(handler)), args))
      ensures bus.Channels(handler) ==
                old(bus.Channels(handler)) + if monitoring then {} else SetOf(args[..ValidCount(args)])
      ensures subscribing == (reply.Subscribed? || old(subscribing))
    {
      hide ParseChannel, IsValidChannel, EventBus.Channels, EventBus.Subscribed, EventBus.Valid;
      if monitoring {
        return InMonitorMode;
      }
      if args == [] {
        return NoArguments;
      }
      var totals, bad := SubscribeEach(args);
      assert args[..|args|] == args;
      if bad.Some? {
        return InvalidChannel(bad.value);
      }
      subscribing := true;
      reply := SubscribeReply.Subscribed(totals);
    }

    /** Subscribes to the names up to the first invalid one, which is returned. */
    method SubscribeEach(names: seq<string>) returns (totals: seq<Notice>, bad: Option<string>)
      requires bus.Valid()
      modifies bus
      ensures bus.Valid() && OthersKept()
      ensures bus.Channels(handler) == old(bus.Channels(handler)) + SetOf(names[..ValidCount(names)])
      ensures bad == if ValidCount(names) < |names| then Some(names[ValidCount(names)]) else None
      ensures bad.None? ==> totals == Totals(old(bus.Channels(handler)), names)
    {
      hide IsValidChannel, EventBus.Channels, EventBus.Subscribed, EventBus.Valid, Totals;
      ghost var before := bus.Channels(handler);
      totals := [];
      for i := 0 to |names|
        invariant bus.Valid() && OthersKept()
        invariant ValidCount(names) == i + ValidCount(names[i..])
        invariant bus.Channels(handler) == before + SetOf(names[..i])
        invariant totals + Totals(bus.Channels(handler), names[i..]) == Totals(before, names)
      {
        if !IsValidChannel(names[i]) {
          return totals, Some(names[i]);
        }
        assert names[i..][1..] == names[i + 1..] && names[..i + 1] == names[..i] + [names[i]];
        TotalsStep(bus.Channels(handler), names, i, totals);
        var total := SubscribeOne(names[i]);
        totals := totals + [Notice(Some(names[i]), total)];
      }
      TotalsEnd(bus.Channels(handler), names, totals);
      bad := None;
    }

    method SubscribeOne(channel: string) returns (total: nat)
      requires bus.Valid() && IsValidChannel(channel)
      modifies bus
      ensures bus.Valid() && OthersKept()
      ensures bus.Channels(handler) == old(bus.Channels(handler)) + {channel}
      ensures total == |bus.Channels(handler)|
    {
      hide ParseChannel, IsValidChannel;
      bus.ChannelsAre(handler);
      var added := bus.Subscribe(handler, channel);
      bus.ChannelsAre(handler);
      var channels := bus.SubscriberChannels(handler);
      total := |channels|;
    }

    method UnsubscribeOne(channel: string) returns (remaining: nat)
      requires bus.Valid()
      modifies bus
      ensures bus.Valid() && OthersKept()
      ensures bus.Channels(handler) == old(bus.Channels(handler)) - {channel}
      ensures remaining == |bus.Channels(handler)|
    {
      hide ParseChannel;
      bus.ChannelsAre(handler);
      var removed := bus.Unsubscribe(handler, channel);
      bus.ChannelsAre(handler);
      var left := bus.SubscriberChannels(handler);
      remaining := |left|;
    }

    /** Unsubscribes the names one by one, each notice with the number of channels that are left. */
    method UnsubscribeEach(names: seq<string>) returns (notices: seq<Notice>)
      requires bus.Valid()
      modifies bus
      ensures bus.Valid() && OthersKept()
      ensures bus.Channels(handler) == Left(old(bus.Channels(handler)), names)
      ensures notices == Notices(old(bus.Channels(handler)), names)
    {
      hide EventBus.Channels, EventBus.Subscribed, EventBus.Valid, Notices, Left;
      notices := [];
      ghost var before := bus.Channels(handler);
      for i := 0 to |names|
        invariant bus.Valid() && OthersKept()
        invariant Left(bus.Channels(handler), names[i..]) == Left(before, names)
        invariant notices + Notices(bus.Channels(handler), names[i..]) == Notices(before, names)
      {
        NoticesStep(bus.Channels(handler), names, i, notices);
        var remaining := UnsubscribeOne(names[i]);
        notices := notices + [Notice(Some(names[i]), remaining)];
      }
      NoticesEnd(bus.Channels(handler), names, notices);
    }

    /**
     * UNSUBSCRIBE. Without arguments every channel goes, once each in some order, and with `n`
     * channels the counts run from `n - 1` down to 0; the client leaves subscriber mode when
     * nothing is left.
     */
    method HandleUnsubscribe(args: seq<string>) returns (notices: seq<Notice>, ghost order: seq<string>)
      requires bus.Valid()
      modifies this`subscribing, bus
      ensures bus.Valid() && OthersKept()
      ensures bus.Channels(handler) == if args == [] then {} else old(bus.Channels(handler)) - SetOf(args)
      ensures args == [] ==> SetOf(order) == old(bus.Channels(handler)) && |order| == |SetOf(order)|
      ensures args == [] && order == [] ==> notices == [Notice(None, 0)]
      ensures args == [] && order != [] ==>
                |notices| == |order|
                && forall i :: 0 <= i < |order| ==> notices[i] == Notice(Some(order[i]), |order| - 1 - i)
      ensures args != [] ==> notices == Notices(old(bus.Channels(handler)), args)
      ensures subscribing <==> old(subscribing) && bus.Channels(handler) != {}
    {
      bus.ChannelsAre(handler);
      hide EventBus.Channels, EventBus.Subscribed, EventBus.Valid;
      ghost var before := bus.Channels(handler);
      order := [];
      if args == [] {
        var channels := bus.SubscriberChannels(handler);
        order := channels;
        assert SetOf(channels) == before;
        if channels == [] {
          notices := [Notice(None, 0)];
        } else {
          notices := UnsubscribeEach(channels);
          assert Left(before, channels) == {};
          CountDown(before, channels);
        }
      } else {
        notices := UnsubscribeEach(args);
      }
      bus.ChannelsAre(handler);
      var left := bus.SubscriberChannels(handler);
      if left == [] {
        subscribing := false;
      }
    }
  }

  function SetOf(s: seq<string>): (r: set<string>)
    ensures forall c :: c in r <==> c in s
  {
    set c | c in s
  }

  lemma {:induction false} SetBound(s: seq<string>)
    ensures |SetOf(s)| <= |s|
  {
    if s != [] {
      SetBound(s[1..]);
      assert SetOf(s) <= {s[0]} + SetOf(s[1..]);
      Subset(SetOf(s), {s[0]} + SetOf(s[1..]));
    }
  }

  lemma Subset(a: set<string>, b: set<string>)
    requires a <= b
    ensures |a| <= |b|
  {
    assert b == a + (b - a);
  }

  /** Over a list of all channels, each once, the counts run down to 0. */
  lemma {:induction false} CountDown(all: set<string>, names: seq<string>)
    requires SetOf(names) == all && |names| == |all|
    ensures forall i :: 0 <= i < |names| ==> Notices(all, names)[i] == Notice(Some(names[i]), |names| - 1 - i)
  {
    if names != [] {
      var rest := names[1..];
      SetBound(rest);
      assert all == {names[0]} + SetOf(rest);
      assert names[0] in rest ==> all == SetOf(rest);
      assert SetOf(rest) == all - {names[0]};
      CountDown(all - {names[0]}, rest);
    }
  }
}
