/**
 * How the splitting of a byte stream across `feed` calls affects what the server reads. The line
 * end search of the inline path looks for CRLF in the whole buffer before it accepts a bare LF
 * (testcore/protocol.py:104-112), so a stream is read the same under every splitting exactly when
 * no inline line has a bare LF in front of a later CRLF.
 */
module Chunking {
  import opened Wrappers
  import opened Text
  import opened Wire
  import opened ServerParser
  import Agreement
  import C = ClientParser
  import Inline

  /** An inline line is clean if its first LF belongs to its CRLF, or no CRLF follows at all. */
  predicate LineClean(s: seq<Byte>) {
    FindCrlf(s, 0).None? || FindLf(s, 0) == Some(FindCrlf(s, 0).value + 1)
  }

  /** Every inline line met while reading `s` is clean. */
  predicate Clean(s: seq<Byte>)
    decreases |s|
  {
    s == []
    || ((IsType(s[0]) || LineClean(s))
        && (Message(s).Done? ==> Clean(s[Message(s).consumed..])))
  }

  function Concat(chunks: seq<seq<Byte>>): seq<Byte> {
    if chunks == [] then [] else chunks[0] + Concat(chunks[1..])
  }

  /** The outcome of feeding the chunks one by one to a parser that holds `buffer`. */
  function FeedAll(limit: nat, buffer: seq<Byte>, chunks: seq<seq<Byte>>): Feed
    decreases |chunks|
  {
    if chunks == [] then Fed([], buffer)
    else
      match FeedOnce(limit, buffer, chunks[0])
      case Broken(fault) => Broken(fault)
      case Fed(messages, rest) => Prepend(messages, FeedAll(limit, rest, chunks[1..]))
  }

  /** No call of `feed` finds more than `limit` bytes in the buffer. */
  predicate Fits(limit: nat, buffer: seq<Byte>, chunks: seq<seq<Byte>>)
    decreases |chunks|
  {
    chunks == []
    || (|buffer + chunks[0]| <= limit
        && (Drain(buffer + chunks[0]).Fed? ==> Fits(limit, Drain(buffer + chunks[0]).rest, chunks[1..])))
  }

  // ---------------------------------------------------------------- one message

  lemma MessageStable(s: seq<Byte>, t: seq<Byte>)
    requires s != [] && IsType(s[0]) && !Message(s).Incomplete?
    ensures Message(s + t) == Message(s)
  {
    hide Message, C.ElementAt;
    Agreement.ParsersAgree(s);
    Agreement.ParsersAgree(s + t);
    C.Stable(s, 0, t);
  }

  lemma MessageLocal(s: seq<Byte>, k: nat)
    requires s != [] && IsType(s[0]) && Message(s).Done? && Message(s).consumed <= k <= |s|
    ensures Message(s[..k]) == Message(s)
  {
    hide Message, C.ElementAt;
    Agreement.ParsersAgree(s);
    Agreement.ParsersAgree(s[..k]);
    C.Local(s, 0, k);
  }

  lemma LineEndStable(s: seq<Byte>, t: seq<Byte>)
    requires LineClean(s + t) && LineEnd(s).Some?
    ensures LineEnd(s + t) == LineEnd(s)
  {
    hide FindCrlf, FindLf;
    var end := LineEnd(s).value;
    if FindCrlf(s, 0).Some? {
      FindCrlfAppend(s, t, 0);
    } else {
      var lf := FindLf(s, 0).value;
      assert (s + t)[lf] == LF && forall k :: 0 <= k < lf ==> (s + t)[k] == s[k];
      assert FindLf(s + t, 0) == Some(lf);
      assert lf > 0 && CrlfAt(s + t, lf - 1) ==> CrlfAt(s, lf - 1);
    }
  }

  /** What was read from `s` is read from any clean continuation of `s`. */
  lemma HeadStable(s: seq<Byte>, t: seq<Byte>)
    requires s != [] && Clean(s + t) && !Message(s).Incomplete?
    ensures Message(s + t) == Message(s)
  {
    assert (s + t)[0] == s[0];
    if IsType(s[0]) {
      MessageStable(s, t);
    } else {
      LineEndStable(s, t);
      var end := LineEnd(s).value;
      assert (s + t)[..end.0] == s[..end.0];
      assert Message(s + t) == Command(s + t);
    }
  }

  // ---------------------------------------------------------------- clean streams

  /** Reading a clean stream in two parts: first `s`, then its rest together with `t`. */
  lemma {:induction false} DrainExtend(s: seq<Byte>, t: seq<Byte>)
    requires Clean(s + t)
    ensures Drain(s).Broken? ==> Drain(s + t) == Drain(s)
    ensures Drain(s).Fed? ==> Drain(s + t) == Prepend(Drain(s).messages, Drain(Drain(s).rest + t))
    ensures Drain(s).Fed? ==> Clean(Drain(s).rest + t) && |Drain(s).rest| <= |s|
    decreases |s|
  {
    hide Message, IsType, LineClean, Prepend;
    PrependNothing(Drain(s + t));
    match Message(s)
    case Incomplete =>
    case Raised(fault) =>
      HeadStable(s, t);
    case Done(v, consumed) =>
      HeadStable(s, t);
      assert (s + t)[consumed..] == s[consumed..] + t;
      DrainExtend(s[consumed..], t);
      var tail := Drain(s[consumed..]);
      PrependFed([v], tail);
      if tail.Fed? {
        PrependTwice([v], tail.messages, Drain(tail.rest + t));
      }
  }

  lemma PrependNothing(feed: Feed)
    ensures Prepend([], feed) == feed
  {
  }

  lemma PrependFed(messages: seq<Value>, feed: Feed)
    ensures if feed.Fed? then Prepend(messages, feed) == Fed(messages + feed.messages, feed.rest)
            else Prepend(messages, feed) == feed
  {
  }

  lemma PrependTwice(a: seq<Value>, b: seq<Value>, feed: Feed)
    ensures Prepend(a, Prepend(b, feed)) == Prepend(a + b, feed)
  {
    if feed.Fed? {
      assert a + (b + feed.messages) == (a + b) + feed.messages;
    }
  }

  /**
   * A clean stream of any length is read the same, errors included, however it is split across calls
   * of `feed`, as long as what is still unread fits the buffer.
   */
  lemma {:induction false} CleanStreamAnyChunking(limit: nat, buffer: seq<Byte>, chunks: seq<seq<Byte>>)
    requires Clean(buffer + Concat(chunks)) && Fits(limit, buffer, chunks)
    requires Message(buffer).Incomplete?
    ensures FeedAll(limit, buffer, chunks) == Drain(buffer + Concat(chunks))
    decreases |chunks|
  {
    hide Message;
    if chunks == [] {
      assert buffer + Concat(chunks) == buffer;
    } else {
      var s, t := buffer + chunks[0], Concat(chunks[1..]);
      assert buffer + Concat(chunks) == s + t;
      DrainExtend(s, t);
      if Drain(s).Fed? {
        RestIncomplete(s);
        CleanStreamAnyChunking(limit, Drain(s).rest, chunks[1..]);
      }
    }
  }

  lemma {:induction false} RestIncomplete(s: seq<Byte>)
    requires Drain(s).Fed?
    ensures Message(Drain(s).rest).Incomplete? && |Drain(s).rest| <= |s|
    decreases |s|
  {
    hide Message;
    if Message(s).Done? {
      RestIncomplete(s[Message(s).consumed..]);
    }
  }

  /** A stream that is short enough as a whole fits however it is split. */
  lemma {:induction false} ShortFits(limit: nat, buffer: seq<Byte>, chunks: seq<seq<Byte>>)
    requires |buffer + Concat(chunks)| <= limit
    ensures Fits(limit, buffer, chunks)
    decreases |chunks|
  {
    hide Drain;
    if chunks != [] && Drain(buffer + chunks[0]).Fed? {
      RestIncomplete(buffer + chunks[0]);
      ShortFits(limit, Drain(buffer + chunks[0]).rest, chunks[1..]);
    }
  }

  // ---------------------------------------------------------------- faults

  /** The text up to a line end cannot be decoded: nor can a longer text. */
  lemma BadLineStays(s: seq<Byte>, t: seq<Byte>)
    requires Command(s).Raised?
    ensures Command(s + t) == Command(s)
  {
    hide FindCrlf, FindLf, Decode;
    var (i, length) := LineEnd(s).value;
    if FindCrlf(s, 0).Some? {
      FindCrlfAppend(s, t, 0);
      assert (s + t)[..i] == s[..i];
    } else {
      assert (s + t)[i] == LF && forall k :: 0 <= k < i ==> (s + t)[k] == s[k];
      assert FindLf(s + t, 0) == Some(i);
      if FindCrlf(s + t, 0).Some? {
        var j := FindCrlf(s + t, 0).value;
        assert j + 1 < |s| ==> CrlfAt(s, j);
        assert j + 1 > i;
        if j > i {
          assert (s + t)[..j] == s[..i] + [LF] + (s + t)[i + 1..j];
          if Decode((s + t)[..j]).Some? {
            DecodeSplit(s[..i], (s + t)[i + 1..j]);
          }
        }
      } else {
        assert (s + t)[..i] == s[..i];
      }
    }
  }

  lemma RaisedStays(s: seq<Byte>, t: seq<Byte>)
    requires Message(s).Raised?
    ensures Message(MessageLeft(s) + t) == Message(s)
  {
    hide Array, ArrayLeft, Command, FindCrlf;
    var left := MessageLeft(s);
    if s[0] == ARRAY {
      ArrayLeftRaises(s);
      assert Message(left) == Array(left) && IsType(left[0]);
    }
    hide Message;
    assert Message(left) == Message(s);
    if IsType(left[0]) {
      MessageStable(left, t);
    } else {
      BadLineRaises(left, t);
    }
  }

  lemma BadLineRaises(s: seq<Byte>, t: seq<Byte>)
    requires s != [] && !IsType(s[0]) && Message(s).Raised?
    ensures Message(s + t) == Message(s)
  {
    hide Command;
    BadLineStays(s, t);
  }

  /**
   * A parser that has raised on a message raises the same fault again, whatever it is fed next: what
   * the fault left in the buffer cannot be read past.
   */
  lemma {:induction false} FaultSticks(s: seq<Byte>, t: seq<Byte>)
    requires Drain(s).Broken?
    ensures Drain(DrainLeft(s) + t) == Drain(s)
    decreases |s|
  {
    hide Message, MessageLeft;
    if Message(s).Done? {
      FaultSticks(s[Message(s).consumed..], t);
    } else {
      RaisedStays(s, t);
    }
  }

  // ---------------------------------------------------------------- unclean streams

  /** The outcome of two feeds that stay within the limit. */
  lemma TwoFeeds(limit: nat, a: seq<Byte>, b: seq<Byte>)
    requires |a + b| <= limit
    ensures Drain(a).Broken? ==> FeedAll(limit, [], [a, b]) == Drain(a)
    ensures Drain(a).Fed? ==> FeedAll(limit, [], [a, b]) == Prepend(Drain(a).messages, Drain(Drain(a).rest + b))
  {
    hide Drain;
    assert [] + a == a;
    assert [a, b][1..] == [b] && [b][1..] == [];
    if Drain(a).Fed? {
      RestIncomplete(a);
      var rest := Drain(a).rest;
      var second := FeedOnce(limit, rest, b);
      assert FeedAll(limit, rest, [b]) == second by {
        if second.Fed? {
          assert FeedAll(limit, second.rest, [b][1..]) == Fed([], second.rest);
          assert second.messages + [] == second.messages;
        }
      }
    }
  }

  lemma WordsInjective(a: seq<string>, b: seq<string>)
    requires Words(a) == Words(b)
    ensures a == b
  {
    assert |a| == |b|;
    forall i | 0 <= i < |a| ensures a[i] == b[i] {
      assert Words(a)[i] == Words(b)[i];
    }
  }

  lemma NoTokensBefore(whole: string)
    requires whole != "" && !Inline.IsBlank(whole[0])
    ensures Inline.TokensFrom(whole, 0) != Inline.TokensFrom("", 0)
  {
    hide Inline.Token;
    assert Inline.SkipSeparators(whole, 0) == 0;
    assert Inline.TokensFrom("", 0) == [];
  }

  /** A line that goes on past a bare LF splits into different arguments than the part before it. */
  lemma ArgumentsDiffer(x: string, y: string)
    requires '\n' !in x && Inline.Strip(y) != ""
    ensures Arguments(x) != Arguments(x + "\n" + y)
  {
    hide Inline.TokensFrom, Inline.Strip;
    var whole := Inline.Strip(x + "\n" + y);
    var part := Inline.Strip(x);
    if part == "" {
      var i :| 0 <= i < |y| && !Inline.IsBlank(y[i]);
      assert (x + "\n" + y)[|x| + 1 + i] == y[i];
      NoTokensBefore(whole);
    } else {
      Inline.StripKeepsLineFeed(x, y);
      if '\n' in part {
        Inline.StripAddsNoLineFeed(x);
      }
      Inline.TokensCarryLineFeed(whole, 0);
      Inline.TokensCarryLineFeed(part, 0);
      assert whole[0..] == whole && part[0..] == part;
    }
    if Arguments(x) == Arguments(x + "\n" + y) {
      WordsInjective(Inline.TokensFrom(part, 0), Inline.TokensFrom(whole, 0));
    }
  }

  /** A line of blanks between a bare LF and a CRLF is read as one more, empty, command. */
  lemma BlankLine(mid: seq<Byte>, rest: seq<Byte>)
    requires Decode(mid).Some? && Inline.Strip(Decode(mid).value) == ""
    requires FindCrlf(mid + [CR, LF] + rest, 0) == Some(|mid|)
    ensures Message(mid + [CR, LF] + rest) == Done(Items([]), |mid| + 2)
  {
    hide FindCrlf;
    var b := mid + [CR, LF] + rest;
    assert !IsType(b[0]) by {
      if mid != [] {
        assert b[0] == mid[0];
        assert Inline.IsBlank(Decode(mid).value[0]);
      }
    }
    assert b[..|mid|] == mid;
    assert Inline.TokensFrom("", 0) == [];
  }

  lemma FirstCrlfFrom(s: seq<Byte>, d: nat, j: nat)
    requires FindCrlf(s, 0) == Some(j) && d <= j
    ensures FindCrlf(s[d..], 0) == Some(j - d)
  {
    hide FindCrlf;
    assert CrlfAt(s[d..], j - d);
    assert forall k :: 0 <= k && CrlfAt(s[d..], k) ==> CrlfAt(s, d + k);
  }

  /** The part up to and including a first bare LF is a complete command of its own. */
  lemma FirstPart(s: seq<Byte>, i: nat, j: nat)
    requires s != [] && !IsType(s[0])
    requires FindCrlf(s, 0) == Some(j) && FindLf(s, 0) == Some(i) && i < j
    requires Decode(s[..i]).Some?
    ensures Drain(s[..i + 1]) == Fed([Arguments(Decode(s[..i]).value)], [])
  {
    hide FindCrlf, FindLf, Decode;
    var a := s[..i + 1];
    assert forall k :: CrlfAt(s, k) ==> k + 1 > i;
    assert forall k :: CrlfAt(a, k) ==> CrlfAt(s, k);
    assert a[i] == LF;
    assert FindLf(a, 0) == Some(i);
    assert a[..i] == s[..i];
    assert a[i + 1..] == [];
    assert Message(a) == Line(s[..i], i + 1);
    assert Drain([]) == Fed([], []);
  }

  /** A blank remainder of the line: the cut adds an empty command. */
  lemma BlankReadings(first: Value, whole: Value, mid: seq<Byte>, rest: seq<Byte>)
    requires Decode(mid).Some? && Inline.Strip(Decode(mid).value) == ""
    requires FindCrlf(mid + [CR, LF] + rest, 0) == Some(|mid|) && Drain(rest).Fed?
    ensures Prepend([first], Drain(mid + [CR, LF] + rest)) != Prepend([whole], Drain(rest))
  {
    hide FindCrlf, Decode, Message, Inline.TokensFrom, Inline.Strip;
    var b := mid + [CR, LF] + rest;
    BlankLine(mid, rest);
    assert b[|mid| + 2..] == rest;
    assert Drain(b) == Prepend([Items([])], Drain(rest));
    assert |Prepend([first], Drain(b)).messages| == |Drain(rest).messages| + 2;
    assert |Prepend([whole], Drain(rest)).messages| == |Drain(rest).messages| + 1;
  }

  /** The first command of two readings tells them apart. */
  lemma FirstDiffers(first: Value, whole: Value, a: Feed, b: Feed)
    requires first != whole && b.Fed?
    ensures Prepend([first], a) != Prepend([whole], b)
  {
    assert Prepend([whole], b).messages[0] == whole;
    if a.Fed? {
      assert Prepend([first], a).messages[0] == first;
    }
  }

  /** Reading a stream that starts with a CRLF-terminated inline line. */
  lemma LineReading(s: seq<Byte>, j: nat)
    requires s != [] && !IsType(s[0]) && FindCrlf(s, 0) == Some(j) && Drain(s).Fed?
    ensures Decode(s[..j]).Some? && Drain(s[j + 2..]).Fed?
    ensures Drain(s) == Prepend([Arguments(Decode(s[..j]).value)], Drain(s[j + 2..]))
  {
    hide FindCrlf, Decode, Arguments;
    assert Message(s) == Line(s[..j], j + 2);
  }

  /** The pieces of a line with a bare LF at `i` in front of its CRLF at `j`. */
  lemma LinePieces(s: seq<Byte>, i: nat, j: nat)
    requires i < j && j + 1 < |s| && s[i] == LF && s[j] == CR && s[j + 1] == LF
    ensures s[..j] == s[..i] + [LF] + s[i + 1..j]
    ensures s[i + 1..] == s[i + 1..j] + [CR, LF] + s[j + 2..]
    ensures s == s[..i + 1] + s[i + 1..]
  {
  }

  /** An unclean first line: cutting right after its bare LF changes what is read. */
  lemma UncleanHead(limit: nat, s: seq<Byte>)
    requires s != [] && !IsType(s[0]) && !LineClean(s) && Drain(s).Fed? && |s| <= limit
    ensures FindLf(s, 0).Some?
    ensures var p := FindLf(s, 0).value + 1; FeedAll(limit, [], [s[..p], s[p..]]) != Drain(s)
  {
    hide FindCrlf, FindLf, Decode, FeedAll, Drain, Message, Arguments, Inline.Strip;
    var j := FindCrlf(s, 0).value;
    assert s[j + 1] == LF;
    var i := FindLf(s, 0).value;
    var before, mid, rest := s[..i], s[i + 1..j], s[j + 2..];
    var a, b := s[..i + 1], s[i + 1..];
    LinePieces(s, i, j);
    LineReading(s, j);
    DecodeSplit(before, mid);
    FirstPart(s, i, j);
    assert [] + b == b;
    TwoFeeds(limit, a, b);
    FirstCrlfFrom(s, i + 1, j);
    var x, y := Decode(before).value, Decode(mid).value;
    if Inline.Strip(y) == "" {
      BlankReadings(Arguments(x), Arguments(x + "\n" + y), mid, rest);
    } else {
      DecodeLineFeed(before);
      ArgumentsDiffer(x, y);
      FirstDiffers(Arguments(x), Arguments(x + "\n" + y), Drain(b), Drain(rest));
    }
  }

  /** Messages read before the cut do not change it: reading `s` up to `p` after its first message. */
  lemma CutLater(limit: nat, s: seq<Byte>, p: nat)
    requires Message(s).Done? && Message(s).consumed + p <= |s| <= limit
    requires Message(s[..Message(s).consumed + p]) == Message(s)
    ensures var c := Message(s).consumed;
            FeedAll(limit, [], [s[..c + p], s[c + p..]])
            == Prepend([Message(s).value], FeedAll(limit, [], [s[c..][..p], s[c..][p..]]))
  {
    hide Message;
    var c, v := Message(s).consumed, Message(s).value;
    var a, b := s[..c + p], s[c + p..];
    var a', b' := s[c..][..p], s[c..][p..];
    assert a[c..] == a' && b == b';
    TwoFeeds(limit, a, b);
    TwoFeeds(limit, a', b');
    assert Drain(a) == Prepend([v], Drain(a'));
    if Drain(a').Fed? {
      var tail := Drain(Drain(a').rest + b);
      if tail.Fed? {
        assert [v] + (Drain(a').messages + tail.messages) == ([v] + Drain(a').messages) + tail.messages;
      }
    }
  }

  /** Without any CRLF a stream is clean: every line ends at its own LF. */
  lemma {:induction false} NoCrlfClean(s: seq<Byte>)
    requires FindCrlf(s, 0).None?
    ensures Clean(s)
    decreases |s|
  {
    hide FindCrlf, Message;
    if Message(s).Done? {
      var c := Message(s).consumed;
      assert forall k :: 0 <= k && CrlfAt(s[c..], k) ==> CrlfAt(s, c + k);
      NoCrlfClean(s[c..]);
    }
  }

  /** An unclean stream that reads without error is read differently under some two-way split. */
  lemma {:induction false} UncleanStreamSomeChunking(limit: nat, s: seq<Byte>) returns (p: nat)
    requires !Clean(s) && Drain(s).Fed? && |s| <= limit
    ensures p <= |s|
    ensures FeedAll(limit, [], [s[..p], s[p..]]) != Drain(s)
    decreases |s|
  {
    hide Message, FeedAll;
    if !IsType(s[0]) && !LineClean(s) {
      UncleanHead(limit, s);
      p := FindLf(s, 0).value + 1;
    } else {
      var c := Message(s).consumed;
      var q := UncleanStreamSomeChunking(limit, s[c..]);
      p := c + q;
      HeadLocal(s, p);
      CutLater(limit, s, q);
      var x, y := FeedAll(limit, [], [s[c..][..q], s[c..][q..]]), Drain(s[c..]);
      var v := Message(s).value;
      if x.Fed? && x.messages != y.messages {
        assert ([v] + x.messages)[1..] == x.messages && ([v] + y.messages)[1..] == y.messages;
      }
    }
  }

  /** The first message of an unclean stream with a clean head survives cutting what follows it. */
  lemma HeadLocal(s: seq<Byte>, k: nat)
    requires s != [] && (IsType(s[0]) || LineClean(s)) && !Clean(s)
    requires Message(s).Done? && Message(s).consumed <= k <= |s|
    ensures Message(s[..k]) == Message(s)
  {
    hide FindCrlf, FindLf;
    if IsType(s[0]) {
      MessageLocal(s, k);
    } else {
      if FindCrlf(s, 0).None? {
        NoCrlfClean(s);
      }
      FindCrlfTake(s, k, 0);
      var end := LineEnd(s).value;
      assert s[..k][..end.0] == s[..end.0];
      assert Message(s) == Command(s) && Message(s[..k]) == Command(s[..k]);
    }
  }

  // ---------------------------------------------------------------- the exact condition

  /** Whether every way of splitting `s` across `feed` calls gives what one call gives. */
  ghost predicate ChunkingIndependent(limit: nat, s: seq<Byte>) {
    forall chunks :: Concat(chunks) == s ==> FeedAll(limit, [], chunks) == Drain(s)
  }

  /**
   * A stream within the buffer limit that reads without error is read independently of its
   * splitting if and only if every inline line in it is clean.
   */
  lemma ChunkingIndependentIffClean(limit: nat, s: seq<Byte>)
    requires |s| <= limit && Drain(s).Fed?
    ensures ChunkingIndependent(limit, s) <==> Clean(s)
  {
    hide FeedAll, Drain, Clean;
    if Clean(s) {
      forall chunks | Concat(chunks) == s ensures FeedAll(limit, [], chunks) == Drain(s) {
        assert [] + Concat(chunks) == s;
        ShortFits(limit, [], chunks);
        CleanStreamAnyChunking(limit, [], chunks);
      }
    } else {
      var p := UncleanStreamSomeChunking(limit, s);
      var chunks := [s[..p], s[p..]];
      assert chunks[1..] == [s[p..]] && [s[p..]][1..] == [];
      assert Concat(chunks) == s by {
        assert Concat([s[p..]]) == s[p..] + Concat([]);
        assert Concat(chunks) == s[..p] + Concat([s[p..]]);
      }
      assert FeedAll(limit, [], chunks) != Drain(s);
    }
  }

  // ---------------------------------------------------------------- a stream that is not clean

  /** `P`, LF, `Q`, CR, LF. */
  const PQ: seq<Byte> := [80, LF, 81, CR, LF]

  /** A line of text without separators and quotes is one argument. */
  lemma OneWord(s: string)
    requires s != "" && !Inline.IsBlank(s[0]) && !Inline.IsBlank(s[|s| - 1]) && s[0] != '"'
    requires forall i :: 0 <= i < |s| ==> !Inline.IsSeparator(s[i])
    ensures Arguments(s) == Items([Str(s)])
  {
    assert Inline.Strip(s) == s;
    hide Inline.Strip;
    assert Inline.FindSeparator(s, 0) == |s| && s[0..|s|] == s;
    assert Inline.TokensFrom(s, 0) == [s] + Inline.TokensFrom(s, |s|);
    assert Words([s]) == [Str(s)];
  }

  /** A buffer that is one inline line with its CRLF. */
  lemma WholeLine(s: seq<Byte>, text: string)
    requires s != [] && !IsType(s[0]) && FindCrlf(s, 0) == Some(|s| - 2) && s[..|s| - 2] == Encode(text)
    ensures Drain(s) == Fed([Arguments(text)], [])
  {
    hide FindCrlf, Decode, Encode, Arguments;
    DecodeEncode(text);
    assert Message(s) == Done(Arguments(text), |s|);
    assert s[|s|..] == [] && Drain([]) == Fed([], []);
  }

  lemma PqBytes()
    ensures Encode("P") == PQ[..1] && Encode("Q") == PQ[2..][..1] && Encode("P\nQ") == PQ[..3]
    ensures FindCrlf(PQ, 0) == Some(3) && FindLf(PQ, 0) == Some(1) && FindCrlf(PQ[2..], 0) == Some(1)
  {
    assert "Q"[1..] == "" && "P"[1..] == "" && "P\nQ"[1..] == "\nQ" && "\nQ"[1..] == "Q";
    assert CrlfAt(PQ, 3) && !CrlfAt(PQ, 0) && !CrlfAt(PQ, 1) && !CrlfAt(PQ, 2);
    assert CrlfAt(PQ[2..], 1) && !CrlfAt(PQ[2..], 0);
  }

  /** Fed at once `PQ` is a single command, cut behind its first LF it is two. */
  lemma CutChangesReading(limit: nat)
    requires limit >= 5
    ensures !Clean(PQ)
    ensures Drain(PQ) == Fed([Items([Str("P\nQ")])], [])
    ensures FeedAll(limit, [], [PQ[..2], PQ[2..]]) == Fed([Items([Str("P")]), Items([Str("Q")])], [])
  {
    PqBytes();
    hide FindCrlf, FindLf, Encode, Decode, Arguments, Drain, FeedAll, Message;
    OneWord("P");
    OneWord("Q");
    OneWord("P\nQ");
    WholeLine(PQ, "P\nQ");
    WholeLine(PQ[2..], "Q");
    DecodeEncode("P");
    FirstPart(PQ, 1, 3);
    TwoFeeds(limit, PQ[..2], PQ[2..]);
    assert [] + PQ[2..] == PQ[2..];
  }
}
