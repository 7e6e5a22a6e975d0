/**
 * The command journal (testcore/journal.py): a ring buffer of the commands executed, and that it
 * is at all times the end of the history it stands for.
 */
module Journal {
  import opened Wrappers
  import opened Text
  import Inline

  datatype Entry = Entry(time: real, session: int, client: string, command: string, status: string)

  const EXCLUDED: set<string> := {"PING", "JOURNAL", "COMMAND"}

  function Join(words: seq<string>): string {
    if words == [] then "" else if |words| == 1 then words[0] else words[0] + " " + Join(words[1..])
  }

  /** The commands that are not recorded. */
  predicate Excluded(command: seq<string>) {
    command != [] && Upper(command[0]) in EXCLUDED
  }

  /** These are PING, JOURNAL and COMMAND, in any case. */
  lemma ExcludedIff(command: seq<string>)
    ensures Excluded(command) <==>
              command != []
              && (Spells(command[0], "PING") || Spells(command[0], "JOURNAL") || Spells(command[0], "COMMAND"))
  {
    if command != [] {
      hide Upper, Spells;
      UpperSpells(command[0], "PING");
      UpperSpells(command[0], "JOURNAL");
      UpperSpells(command[0], "COMMAND");
    }
  }

  /** Bare words, with a space in front of each but the first. */
  function BareWords(words: seq<string>): (r: seq<Inline.Argument>)
    ensures |r| == |words| && forall i :: 0 <= i < |r| ==> r[i] == Inline.Bare(words[i])
  {
    seq(|words|, i requires 0 <= i < |words| => Inline.Bare(words[i]))
  }

  function Spaces(n: nat): (r: seq<string>)
    ensures |r| == n && forall i :: 0 <= i < n ==> r[i] == " "
  {
    seq(n, _ => " ")
  }

  lemma {:induction false} JoinIsLine(words: seq<string>)
    requires words != []
    ensures Join(words) == Inline.Line(BareWords(words), [""] + Spaces(|words| - 1), "")
    ensures " " + Join(words) == Inline.Line(BareWords(words), Spaces(|words|), "")
    decreases |words|
  {
    var args, rest := BareWords(words), words[1..];
    assert args[1..] == BareWords(rest) && ([""] + Spaces(|rest|))[1..] == Spaces(|rest|);
    assert Spaces(|words|)[1..] == Spaces(|rest|);
    if rest == [] {
      assert Inline.Line(args[1..], Spaces(0), "") == "";
    } else {
      JoinIsLine(rest);
    }
  }

  lemma BareWellWritten(words: seq<string>)
    requires words != [] && forall i :: 0 <= i < |words| ==> Inline.Writable(Inline.Bare(words[i]))
    ensures Inline.WellWritten(BareWords(words), [""] + Spaces(|words| - 1), "")
    ensures Inline.Texts(BareWords(words)) == words
  {
    hide Inline.Writable;
  }

  /** The recorded text of a command of bare words is read as exactly these words. */
  lemma JoinReads(words: seq<string>)
    requires forall i :: 0 <= i < |words| ==> Inline.Writable(Inline.Bare(words[i]))
    ensures Inline.TokensFrom(Join(words), 0) == words
  {
    hide Inline.TokensFrom, Inline.Writable, Inline.Line, Inline.WellWritten, Inline.Texts, BareWords;
    if words == [] {
      Inline.NoTokens("");
    } else {
      JoinIsLine(words);
      BareWellWritten(words);
      assert Join(words)[0..] == Join(words);
      Inline.SplitWritten(Join(words), 0, BareWords(words), [""] + Spaces(|words| - 1), "");
    }
  }

  // ---------------------------------------------------------------- the buffer

  /** `deque.append` with a maximal length. */
  function Append(entries: seq<Entry>, e: Entry, maxlen: nat): seq<Entry> {
    if |entries| + 1 > maxlen then (entries + [e])[1..] else entries + [e]
  }

  /** The last `n` entries, or all if there are fewer. */
  function Last(entries: seq<Entry>, n: nat): (r: seq<Entry>)
    ensures |r| == if |entries| <= n then |entries| else n
  {
    if |entries| <= n then entries else entries[|entries| - n..]
  }

  /** `list[-count:]` and what comes before it: any `count` above 0 works as meant. */
  function TailSpec(entries: seq<Entry>, count: int): seq<Entry> {
    if count >= |entries| then entries
    else if count > 0 then entries[|entries| - count..]
    else if -count <= |entries| then entries[-count..]
    else []
  }

  function HeadSpec(entries: seq<Entry>, offset: nat, count: Option<nat>): seq<Entry> {
    if offset >= |entries| then []
    else if count.Some? && count.value < |entries| - offset then entries[offset..offset + count.value]
    else entries[offset..]
  }

  class Journal {
    const maxlen: nat
    var entries: seq<Entry>

    constructor (maxlen: nat)
      ensures entries == [] && this.maxlen == maxlen
    {
      this.maxlen, entries := maxlen, [];
    }

    method Record(time: real, session: int, client: string, command: seq<string>, status: string)
      modifies this
      ensures entries ==
                Step(old(entries), Recorded(command, Entry(time, session, client, Join(command), status)), maxlen)
    {
      var name := if command != [] then Upper(command[0]) else "";
      if name in EXCLUDED {
        return;
      }
      entries := entries + [Entry(time, session, client, Join(command), status)];
      if |entries| > maxlen {
        entries := entries[1..];
      }
    }

    method Tail(count: int) returns (r: seq<Entry>)
      ensures r == TailSpec(entries, count)
    {
      if count >= |entries| {
        return entries;
      }
      var start := if count > 0 then |entries| - count else -count;
      r := if start <= |entries| then entries[start..] else [];
    }

    method Head(offset: nat, count: Option<nat>) returns (r: seq<Entry>)
      ensures r == HeadSpec(entries, offset, count)
    {
      if offset >= |entries| {
        return [];
      }
      r := entries[offset..];
      if count.Some? && count.value < |r| {
        r := r[..count.value];
      }
    }

    method Clear() returns (count: nat)
      modifies this
      ensures entries == Step(old(entries), Cleared, maxlen) && count == old(|entries|)
    {
      count := |entries|;
      entries := [];
    }
  }

  // ---------------------------------------------------------------- the history

  datatype Operation = Recorded(command: seq<string>, entry: Entry) | Cleared

  function Step(entries: seq<Entry>, op: Operation, maxlen: nat): seq<Entry> {
    match op
    case Recorded(command, e) => if Excluded(command) then entries else Append(entries, e, maxlen)
    case Cleared => []
  }

  /** The buffer after a sequence of operations. */
  function Buffer(ops: seq<Operation>, maxlen: nat): seq<Entry> {
    if ops == [] then [] else Step(Buffer(ops[..|ops| - 1], maxlen), ops[|ops| - 1], maxlen)
  }

  /** Everything recorded since the last clear. */
  function History(ops: seq<Operation>): seq<Entry> {
    if ops == [] then []
    else
      var before, op := History(ops[..|ops| - 1]), ops[|ops| - 1];
      if op.Cleared? then [] else if Excluded(op.command) then before else before + [op.entry]
  }

  /** The buffer is the end of the history, at every length and after every sequence of operations. */
  lemma {:induction false} BufferIsRecentHistory(ops: seq<Operation>, maxlen: nat)
    ensures Buffer(ops, maxlen) == Last(History(ops), maxlen)
  {
    if ops != [] {
      hide Excluded, Append, Last;
      BufferIsRecentHistory(ops[..|ops| - 1], maxlen);
      var before, op := History(ops[..|ops| - 1]), ops[|ops| - 1];
      AppendLast(before, if op.Recorded? then op.entry else Entry(0.0, 0, "", "", ""), maxlen);
    }
  }

  /** Dropping the oldest entry on overflow keeps exactly the last ones. */
  lemma AppendLast(before: seq<Entry>, e: Entry, maxlen: nat)
    ensures Append(Last(before, maxlen), e, maxlen) == Last(before + [e], maxlen)
  {
    if |before| > maxlen {
      assert before[|before| - maxlen..] + [e] == (before + [e])[|before| - maxlen..];
    }
  }

  // ---------------------------------------------------------------- reading it

  /**
   * `tail(count)` is an end of the buffer, and it is the one of the length asked for, or the whole buffer
   * if that is shorter, exactly if `count` is positive or the buffer is empty; `tail(0)` of a non-empty
   * buffer returns all of it.
   */
  lemma TailLength(entries: seq<Entry>, count: nat)
    ensures TailSpec(entries, count) == Last(entries, count) <==> count >= 1 || entries == []
    ensures TailSpec(entries, 0) == entries
    ensures var length := if count <= |entries| then count else |entries|;
            Last(entries, count) == entries[|entries| - length..]
    ensures forall c: int :: var r := TailSpec(entries, c); |r| <= |entries| && r == entries[|entries| - |r|..]
  {
    assert TailSpec(entries, count) == Last(entries, count) ==> |TailSpec(entries, count)| == |Last(entries, count)|;
  }

  /** The pages of size `n` from `offset` on, put together. */
  function Pages(entries: seq<Entry>, offset: nat, n: nat): seq<Entry>
    requires n >= 1
    decreases if offset < |entries| then |entries| - offset else 0
  {
    if offset >= |entries| then [] else HeadSpec(entries, offset, Some(n)) + Pages(entries, offset + n, n)
  }

  lemma PageSplits(entries: seq<Entry>, offset: nat, n: nat)
    requires offset <= |entries|
    ensures var page := HeadSpec(entries, offset, Some(n));
            if offset + n < |entries| then entries[offset..] == page + entries[offset + n..]
            else entries[offset..] == page
  {
  }

  /** For every page size the pages put together are the whole buffer. */
  lemma {:induction false} PagesFrom(entries: seq<Entry>, offset: nat, n: nat)
    requires n >= 1 && offset <= |entries|
    ensures Pages(entries, offset, n) == entries[offset..] == HeadSpec(entries, offset, None)
    decreases |entries| - offset
  {
    PageSplits(entries, offset, n);
    hide HeadSpec;
    if offset + n < |entries| {
      PagesFrom(entries, offset + n, n);
    } else if offset < |entries| {
      assert Pages(entries, offset + n, n) == [];
    }
  }

  lemma PagesAreAll(entries: seq<Entry>, n: nat)
    requires n >= 1
    ensures Pages(entries, 0, n) == entries
  {
    PagesFrom(entries, 0, n);
  }

  /** Reading the buffer of a history page by page gives its most recent records, in order. */
  lemma PagesAreRecentHistory(ops: seq<Operation>, maxlen: nat, n: nat)
    requires n >= 1
    ensures Pages(Buffer(ops, maxlen), 0, n) == Last(History(ops), maxlen)
  {
    BufferIsRecentHistory(ops, maxlen);
    PagesAreAll(Buffer(ops, maxlen), n);
  }
}
