/**
 * The server's serializer (testcore/protocol.py, RESPSerializer) and its round trips through both
 * parsers: every reply it can frame is read back exactly, and nothing after it is touched.
 */
module Serializer {
  import opened Wrappers
  import opened Text
  import opened Wire
  import opened ServerParser
  import Agreement
  import Chunking
  import C = ClientParser
  import Inline

  const CRLF: seq<Byte> := [CR, LF]
  const NULL_REPLY: seq<Byte> := [BULK, 45, 49, CR, LF]

  function SimpleString(s: string): seq<Byte> {
    [SIMPLE] + Encode(s) + CRLF
  }

  /** `-<text>\r\n`: `RESPSerializer.error(msg)` is this with `"ERR " + msg`. */
  function ErrorReply(text: string): seq<Byte> {
    [ERROR] + Encode(text) + CRLF
  }

  function IntegerReply(n: int): seq<Byte> {
    [INTEGER] + Signed(n) + CRLF
  }

  function BulkString(s: string): seq<Byte> {
    [BULK] + Decimal(|Encode(s)|) + CRLF + Encode(s) + CRLF
  }

  /** Array items the serializer accepts; a nested list is a ValueError. */
  predicate Flat(items: seq<Value>) {
    forall i :: 0 <= i < |items| ==> !items[i].Items?
  }

  function EncodeItem(v: Value): seq<Byte>
    requires !v.Items?
  {
    match v
    case Null => NULL_REPLY
    case Str(text) => BulkString(text)
    case Integer(n) => IntegerReply(n)
  }

  function EncodeItems(items: seq<Value>): seq<Byte>
    requires Flat(items)
  {
    if items == [] then [] else EncodeItem(items[0]) + EncodeItems(items[1..])
  }

  function EncodeArray(items: seq<Value>): seq<Byte>
    requires Flat(items)
  {
    [ARRAY] + Decimal(|items|) + CRLF + EncodeItems(items)
  }

  lemma {:induction false} EncodeItemsSnoc(items: seq<Value>, v: Value)
    requires Flat(items) && !v.Items?
    ensures EncodeItems(items + [v]) == EncodeItems(items) + EncodeItem(v)
  {
    hide EncodeItem;
    if items != [] {
      EncodeItemsSnoc(items[1..], v);
      assert (items + [v])[1..] == items[1..] + [v];
    } else {
      assert [v][1..] == [];
    }
  }

  /** `RESPSerializer.array`: the header and one part per item; `None` is the ValueError. */
  method Array(items: seq<Value>) returns (r: Option<seq<Byte>>)
    ensures r == if Flat(items) then Some(EncodeArray(items)) else None
  {
    hide EncodeItem;
    var parts := [ARRAY] + Decimal(|items|) + CRLF;
    for i := 0 to |items|
      invariant Flat(items[..i])
      invariant parts == [ARRAY] + Decimal(|items|) + CRLF + EncodeItems(items[..i])
    {
      if items[i].Items? {
        return None;
      }
      EncodeItemsSnoc(items[..i], items[i]);
      assert items[..i + 1] == items[..i] + [items[i]];
      parts := parts + EncodeItem(items[i]);
    }
    assert items[..|items|] == items;
    r := Some(parts);
  }

  // ---------------------------------------------------------------- one reply

  lemma HeaderLine(t: Byte, body: seq<Byte>, rest: seq<Byte>)
    requires CR !in body
    ensures FindCrlf([t] + body + CRLF + rest, 1) == Some(1 + |body|)
    ensures ([t] + body + CRLF + rest)[1..1 + |body|] == body
  {
    hide FindCrlf;
    var head := [t] + body;
    assert forall k :: 1 <= k < |head| ==> head[k] == body[k - 1];
    FindCrlfAfter(head, rest, 1);
  }

  lemma NumberHasNoCr(n: int)
    ensures CR !in Signed(n)
  {
  }

  lemma IntegerReadsBack(n: int, rest: seq<Byte>)
    ensures C.ElementAt(IntegerReply(n) + rest, 0) == Done(Integer(n), |IntegerReply(n)|)
  {
    hide FindCrlf, PyInt, Signed;
    NumberHasNoCr(n);
    PyIntOfSigned(n);
    HeaderLine(INTEGER, Signed(n), rest);
  }

  lemma BulkReadsBack(s: string, rest: seq<Byte>)
    ensures C.ElementAt(BulkString(s) + rest, 0) == Done(Str(s), |BulkString(s)|)
  {
    hide FindCrlf, PyInt, Decimal, Encode, Decode;
    var data := Encode(s);
    var number := Decimal(|data|);
    NumberHasNoCr(|data|);
    PyIntOfSigned(|data|);
    DecodeEncode(s);
    var buf := BulkString(s) + rest;
    assert buf == [BULK] + number + CRLF + (data + CRLF + rest);
    HeaderLine(BULK, number, data + CRLF + rest);
    var from := 1 + |number| + 2;
    var to := from + |data|;
    assert buf[from..to] == data;
    assert buf[to..to + 2] == CRLF;
    assert C.BulkBody(buf, 0, from, |data|) == Done(Str(s), to + 2);
  }

  /** A negative length or count of any size reads as null. */
  lemma NegativeReadsNull(t: Byte, n: int, rest: seq<Byte>)
    requires (t == BULK || t == ARRAY) && n < 0
    ensures var frame := [t] + Signed(n) + CRLF;
            C.ElementAt(frame + rest, 0) == Done(Null, |frame|) && Message(frame + rest) == Done(Null, |frame|)
  {
    hide FindCrlf, PyInt, Signed, Message;
    NumberHasNoCr(n);
    PyIntOfSigned(n);
    HeaderLine(t, Signed(n), rest);
    Agreement.ParsersAgree([t] + Signed(n) + CRLF + rest);
  }

  lemma NullReadsBack(rest: seq<Byte>)
    ensures C.ElementAt(NULL_REPLY + rest, 0) == Done(Null, |NULL_REPLY|)
  {
    hide C.ElementAt, Message;
    NegativeReadsNull(BULK, -1, rest);
    assert Signed(-1) == [45, 49];
    assert NULL_REPLY == [BULK] + [45, 49] + CRLF;
  }

  // ---------------------------------------------------------------- values of any depth

  /** The frame of a value, lists within lists included; the serializer itself refuses those. */
  function EncodeValue(v: Value): seq<Byte> {
    match v
    case Null => NULL_REPLY
    case Str(text) => BulkString(text)
    case Integer(n) => IntegerReply(n)
    case Items(elems) => ListHeader(elems) + EncodeValues(elems)
  }

  function EncodeValues(values: seq<Value>): seq<Byte> {
    if values == [] then [] else EncodeValue(values[0]) + EncodeValues(values[1..])
  }

  function ListHeader(elems: seq<Value>): seq<Byte> {
    [ARRAY] + Decimal(|elems|) + CRLF
  }

  lemma ListReads(elems: seq<Value>, more: seq<Byte>)
    ensures var header := ListHeader(elems);
            C.ElementAt(header + more, 0) == C.ElementsAt(header + more, 0, |header|, |elems|, [])
  {
    hide FindCrlf, PyInt, Decimal, C.ElementsAt;
    var number := Decimal(|elems|);
    var buf := ListHeader(elems) + more;
    NumberHasNoCr(|elems|);
    PyIntOfSigned(|elems|);
    assert buf == [ARRAY] + number + CRLF + more;
    HeaderLine(ARRAY, number, more);
    assert C.ArrayAt(buf, 0) == C.ElementsAt(buf, 0, 1 + |number| + 2, |elems|, []);
  }

  /** Every value, nested to any depth, is read back from its frame, whatever follows. */
  lemma {:induction false} ValueReadsBack(v: Value, rest: seq<Byte>)
    ensures C.ElementAt(EncodeValue(v) + rest, 0) == Done(v, |EncodeValue(v)|)
    decreases v, 0
  {
    hide C.ElementAt, C.ElementsAt, IntegerReply, BulkString, EncodeValues;
    match v
    case Null => NullReadsBack(rest);
    case Str(text) => BulkReadsBack(text, rest);
    case Integer(n) => IntegerReadsBack(n, rest);
    case Items(elems) =>
      ValuesReadBack(ListHeader(elems), elems, rest, []);
      ListReads(elems, EncodeValues(elems) + rest);
      assert EncodeValue(v) + rest == ListHeader(elems) + (EncodeValues(elems) + rest);
      assert ListHeader(elems) + EncodeValues(elems) + rest == ListHeader(elems) + (EncodeValues(elems) + rest);
      assert [] + elems == elems;
  }

  lemma {:induction false} ValuesReadBack(pre: seq<Byte>, values: seq<Value>, rest: seq<Byte>, acc: seq<Value>)
    requires pre != []
    ensures C.ElementsAt(pre + EncodeValues(values) + rest, 0, |pre|, |values|, acc)
            == Done(Items(acc + values), |pre| + |EncodeValues(values)|)
    decreases values, 1
  {
    hide EncodeValue, C.ElementAt;
    var buf := pre + EncodeValues(values) + rest;
    if values == [] {
      assert acc + values == acc;
    } else {
      var v, more := values[0], EncodeValues(values[1..]) + rest;
      var bytes := EncodeValue(v);
      assert buf[|pre|..] == bytes + more;
      ValueReadsBack(v, more);
      ValueNotEmpty(v);
      C.Shift(buf, |pre|, 0);
      assert buf == (pre + bytes) + EncodeValues(values[1..]) + rest;
      ValuesReadBack(pre + bytes, values[1..], rest, acc + [v]);
      assert (acc + [v]) + values[1..] == acc + values;
    }
  }

  lemma ValueNotEmpty(v: Value)
    ensures EncodeValue(v) != [] && IsType(EncodeValue(v)[0])
  {
  }

  /** Both parsers read it back. */
  lemma NestedReadsBack(v: Value, rest: seq<Byte>)
    ensures Message(EncodeValue(v) + rest) == Done(v, |EncodeValue(v)|)
    ensures C.TryParse(EncodeValue(v) + rest) == Done(v, |EncodeValue(v)|)
  {
    hide Message, C.ElementAt, EncodeValue;
    ValueReadsBack(v, rest);
    ValueNotEmpty(v);
    Agreement.ParsersAgree(EncodeValue(v) + rest);
  }

  lemma {:induction false} FlatEncoding(items: seq<Value>)
    requires Flat(items)
    ensures EncodeItems(items) == EncodeValues(items)
  {
    if items != [] {
      FlatEncoding(items[1..]);
    }
  }

  /**
   * A serialized list of strings (any content, CR and LF included), integers and nulls is read
   * back as exactly that list, taking exactly its own bytes, whatever follows.
   */
  lemma ArrayReadsBack(items: seq<Value>, rest: seq<Byte>)
    requires Flat(items)
    ensures Message(EncodeArray(items) + rest) == Done(Items(items), |EncodeArray(items)|)
    ensures C.TryParse(EncodeArray(items) + rest) == Done(Items(items), |EncodeArray(items)|)
  {
    hide Message, C.TryParse, EncodeItems, EncodeValues;
    FlatEncoding(items);
    NestedReadsBack(Items(items), rest);
  }

  /** Serialized lists are uniquely decodable: equal bytes start with the same list. */
  lemma ArraysUniquelyDecodable(a: seq<Value>, x: seq<Byte>, b: seq<Value>, y: seq<Byte>)
    requires Flat(a) && Flat(b) && EncodeArray(a) + x == EncodeArray(b) + y
    ensures a == b && x == y
  {
    hide EncodeArray, Message;
    ArrayReadsBack(a, x);
    ArrayReadsBack(b, y);
    assert (EncodeArray(a) + x)[|EncodeArray(a)|..] == x;
    assert (EncodeArray(b) + y)[|EncodeArray(b)|..] == y;
  }

  /**
   * A simple string comes back unchanged exactly when its bytes contain no CRLF; the serializer
   * does not check this.
   */
  lemma SimpleReadsBackIff(s: string, rest: seq<Byte>)
    ensures C.TryParse(SimpleString(s) + rest) == Done(Str(s), |SimpleString(s)|)
            <==> FindCrlf(Encode(s), 0).None?
  {
    LineReplyReadsBackIff(SIMPLE, s, rest);
  }

  /** An error reply comes back as `ERR_` and its text exactly when its bytes contain no CRLF. */
  lemma ErrorReadsBackIff(text: string, rest: seq<Byte>)
    ensures C.TryParse(ErrorReply(text) + rest) == Done(Str("ERR_" + text), |ErrorReply(text)|)
            <==> FindCrlf(Encode(text), 0).None?
  {
    LineReplyReadsBackIff(ERROR, text, rest);
  }

  lemma LineReplyReadsBackIff(t: Byte, s: string, rest: seq<Byte>)
    requires t == SIMPLE || t == ERROR
    ensures C.TryParse([t] + Encode(s) + CRLF + rest)
            == Done(Str(if t == ERROR then "ERR_" + s else s), |Encode(s)| + 3)
            <==> FindCrlf(Encode(s), 0).None?
  {
    hide FindCrlf, Encode, Decode;
    var body := Encode(s);
    var buf := [t] + body + CRLF + rest;
    DecodeEncode(s);
    assert forall k :: CrlfAt(body, k) ==> CrlfAt(buf, k + 1);
    assert forall k :: 1 <= k && k + 1 <= |body| && CrlfAt(buf, k) ==> CrlfAt(body, k - 1);
    assert CrlfAt(buf, 1 + |body|);
    assert buf[1..1 + |body|] == body;
    if FindCrlf(body, 0).None? {
      assert forall k :: 1 <= k < 1 + |body| ==> !CrlfAt(buf, k);
      assert FindCrlf(buf, 1) == Some(1 + |body|);
    } else {
      var k := FindCrlf(body, 0).value;
      assert CrlfAt(buf, k + 1);
      assert FindCrlf(buf, 1).value < 1 + |body|;
    }
  }

  // ---------------------------------------------------------------- frames that are refused

  lemma BadLine(t: Byte, buf: seq<Byte>, k: nat)
    requires buf != [] && buf[0] == t && FindCrlf(buf, 1) == Some(k) && PyInt(buf[1..k]).None?
    ensures t == BULK ==> C.TryParse(buf) == Raised(BadBulkLength)
    ensures t == ARRAY ==> C.TryParse(buf) == Raised(BadArrayCount)
    ensures t == INTEGER ==> C.TryParse(buf) == Raised(BadInteger)
  {
    hide FindCrlf, PyInt;
    assert t == ARRAY ==> C.ElementAt(buf, 0) == C.ArrayAt(buf, 0);
  }

  /** A length, a count or an integer that `int()` does not read, on the line of its type byte. */
  lemma BadNumberRaises(t: Byte, body: seq<Byte>, rest: seq<Byte>)
    requires (t == BULK || t == ARRAY || t == INTEGER) && CR !in body && PyInt(body).None?
    ensures var fault := if t == BULK then BadBulkLength else if t == ARRAY then BadArrayCount else BadInteger;
            var buf := [t] + body + CRLF + rest;
            Message(buf) == Raised(fault) && C.TryParse(buf) == Raised(fault)
  {
    hide FindCrlf, PyInt, Message, C.TryParse;
    HeaderLine(t, body, rest);
    var buf := [t] + body + CRLF + rest;
    BadLine(t, buf, 1 + |body|);
    Agreement.ParsersAgree(buf);
  }

  lemma BulkEnds(data: seq<Byte>, more: seq<Byte>)
    ensures var header := BulkHeader(data);
            header != [] && header[0] == BULK
            && C.TryParse(header + more) == C.BulkBody(header + more, 0, |header|, |data|)
  {
    hide FindCrlf, PyInt, Decimal, Decode, C.BulkBody;
    NumberHasNoCr(|data|);
    PyIntOfSigned(|data|);
    HeaderLine(BULK, Decimal(|data|), more);
  }

  lemma BadBody(buf: seq<Byte>, from: nat, data: seq<Byte>, end: seq<Byte>)
    requires 0 < from && from + |data| + 2 <= |buf|
    requires buf[from..from + |data|] == data && buf[from + |data|..from + |data| + 2] == end
    requires end != CRLF || Decode(data).None?
    ensures C.BulkBody(buf, 0, from, |data|) == Raised(if end != CRLF then MissingCrlf else BadText)
  {
    hide Decode;
  }

  lemma PartsOf(header: seq<Byte>, data: seq<Byte>, end: seq<Byte>, rest: seq<Byte>)
    ensures var buf, from := header + (data + end + rest), |header|;
            buf[from..from + |data|] == data && buf[from + |data|..from + |data| + |end|] == end
  {
  }

  /** A bulk string of `n` bytes that are not followed by CRLF, or that are no text. */
  lemma BadBulkRaises(data: seq<Byte>, end: seq<Byte>, rest: seq<Byte>)
    requires |end| == 2 && (end != CRLF || Decode(data).None?)
    ensures var buf := BulkHeader(data) + (data + end + rest);
            var fault := if end != CRLF then MissingCrlf else BadText;
            Message(buf) == Raised(fault) && C.TryParse(buf) == Raised(fault)
  {
    hide Decode, Message, C.TryParse, C.BulkBody, BulkHeader;
    var header, more := BulkHeader(data), data + end + rest;
    BulkEnds(data, more);
    PartsOf(header, data, end, rest);
    BadBody(header + more, |header|, data, end);
    Agreement.ParsersAgree(header + more);
  }

  function BulkHeader(data: seq<Byte>): seq<Byte> {
    [BULK] + Decimal(|data|) + CRLF
  }

  /** An array whose first element has no RESP type byte. */
  lemma BadElementRaises(items: seq<Value>, b: Byte, rest: seq<Byte>)
    requires items != [] && !IsType(b)
    ensures var buf := ListHeader(items) + ([b] + rest);
            Message(buf) == Raised(UnexpectedType(b)) && C.TryParse(buf) == Raised(UnexpectedType(b))
  {
    hide Decimal, Message, FindCrlf, PyInt;
    var header, more := ListHeader(items), [b] + rest;
    ListReads(items, more);
    var buf := header + more;
    assert buf[|header|] == b && buf[0] == ARRAY;
    Agreement.ParsersAgree(buf);
  }

  // ---------------------------------------------------------------- streams of commands

  /** The frames of a batch, one after the other. */
  function Frames(batch: seq<seq<Value>>): seq<Byte>
    requires forall i :: 0 <= i < |batch| ==> Flat(batch[i])
  {
    if batch == [] then [] else EncodeArray(batch[0]) + Frames(batch[1..])
  }

  function Lists(batch: seq<seq<Value>>): (r: seq<Value>)
    ensures |r| == |batch| && forall i :: 0 <= i < |r| ==> r[i] == Items(batch[i])
  {
    seq(|batch|, i requires 0 <= i < |batch| => Items(batch[i]))
  }

  /** Frames written back to back are read back one by one, in order, and are a clean stream. */
  lemma {:induction false} FramesReadBack(batch: seq<seq<Value>>)
    requires forall i :: 0 <= i < |batch| ==> Flat(batch[i])
    ensures Drain(Frames(batch)) == Fed(Lists(batch), []) && Chunking.Clean(Frames(batch))
  {
    hide Message, EncodeArray;
    if batch != [] {
      var rest := Frames(batch[1..]);
      ArrayReadsBack(batch[0], rest);
      var bytes := Frames(batch);
      assert bytes[|EncodeArray(batch[0])|..] == rest;
      assert bytes[0] == ARRAY by {
        ArrayStart(batch[0]);
      }
      FramesReadBack(batch[1..]);
      assert Lists(batch) == [Items(batch[0])] + Lists(batch[1..]);
    } else {
      assert Lists(batch) == [];
    }
  }

  lemma ArrayStart(items: seq<Value>)
    requires Flat(items)
    ensures EncodeArray(items) != [] && EncodeArray(items)[0] == ARRAY
  {
  }

  /**
   * End to end: a batch of commands of any length is delivered to the server's dispatcher exactly and
   * in order, however the network splits its bytes, as long as what is still unread fits the buffer.
   */
  lemma BatchSurvivesAnyChunking(limit: nat, batch: seq<seq<Value>>, chunks: seq<seq<Byte>>)
    requires forall i :: 0 <= i < |batch| ==> Flat(batch[i])
    requires Chunking.Concat(chunks) == Frames(batch) && Chunking.Fits(limit, [], chunks)
    ensures Chunking.FeedAll(limit, [], chunks) == Fed(Lists(batch), [])
  {
    hide Frames, Drain, Chunking.Clean, Chunking.FeedAll;
    FramesReadBack(batch);
    assert [] + Chunking.Concat(chunks) == Frames(batch);
    Chunking.CleanStreamAnyChunking(limit, [], chunks);
  }

  // ---------------------------------------------------------------- inline commands

  lemma EncodedStart(s: string)
    requires s != "" && !(s[0] as int < 0x80 && IsType(s[0] as int))
    ensures Encode(s) != [] && !IsType(Encode(s)[0])
  {
    assert Encode(s)[0] == EncodeChar(s[0])[0];
  }

  lemma LineReads(text: string, core: string, words: seq<string>, rest: seq<Byte>)
    requires text != "" && !(text[0] as int < 0x80 && IsType(text[0] as int)) && '\n' !in text
    requires Inline.Strip(text) == core && Inline.TokensFrom(core, 0) == words
    ensures Message(Encode(text) + CRLF + rest) == Done(Items(Words(words)), |Encode(text)| + 2)
  {
    hide FindCrlf, Encode, Decode, Inline.TokensFrom, Inline.Strip, IsType;
    var line := Encode(text);
    var buf := line + CRLF + rest;
    if LF in line {
      EncodeLineFeed(text);
    }
    FindCrlfAfter(line, rest, 0);
    DecodeEncode(text);
    EncodedStart(text);
    assert buf[0] == line[0];
    assert buf[..|line|] == line;
    NoTypeIsCommand(buf);
  }

  lemma NoTypeIsCommand(buf: seq<Byte>)
    requires buf != [] && !IsType(buf[0])
    ensures Message(buf) == Command(buf)
  {
  }

  /**
   * An inline command: arguments without line feed, each in double quotes, bare, or (the last one) behind
   * an open double quote, with runs of spaces and tabs between them and any blanks around, are read back
   * exactly, taking exactly the line. The line must not start like a RESP frame, nor its first or last
   * argument with a blank that would be stripped.
   */
  lemma WrittenLineReadsBack(lead: string, args: seq<Inline.Argument>, gaps: seq<string>, trail: string,
          rest: seq<Byte>)
    requires |gaps| == |args| && args != [] && gaps[0] == "" && Inline.WellWritten(args, gaps, "")
    requires Inline.Visible(Inline.Line(args, gaps, "")) && Inline.Blanks(lead) && Inline.Blanks(trail)
    requires '\n' !in lead && '\n' !in trail && forall a :: a in args ==> '\n' !in a.text
    requires var first := (lead + Inline.Line(args, gaps, ""))[0] as int; !(first < 0x80 && IsType(first))
    ensures var line := Encode(lead + Inline.Line(args, gaps, "") + trail);
            Message(line + CRLF + rest) == Done(Items(Words(Inline.Texts(args))), |line| + 2)
  {
    hide IsType, Inline.TokensFrom, Inline.Strip, Inline.Line, Inline.WellWritten, Encode, Message, Inline.IsBlank;
    var core := Inline.Line(args, gaps, "");
    Inline.StripBlanks(lead, core, trail);
    assert core[0..] == core;
    Inline.SplitWritten(core, 0, args, gaps, "");
    Inline.LineWithoutLineFeed(args, gaps, "");
    assert (lead + core + trail)[0] == (lead + core)[0];
    LineReads(lead + core + trail, core, Inline.Texts(args), rest);
  }
}
