/**
 * The server's incremental parser (testcore/protocol.py, RESPParser): a buffer that is extended by
 * `feed`, one message parsed from its front at a time, array elements decoded inline by absolute
 * position and nested arrays by slicing the buffer.
 */
module ServerParser {
  import opened Wrappers
  import opened Text
  import opened Wire
  import Inline

  // ---------------------------------------------------------------- messages at the front

  function Simple(buf: seq<Byte>): (r: Outcome)
    requires buf != [] && buf[0] == SIMPLE
    ensures r.Done? ==> 0 < r.consumed <= |buf|
  {
    var cr := FindCrlf(buf, 0);
    if cr.None? then Incomplete
    else
      match Decode(buf[1..cr.value])
      case None => Raised(BadText)
      case Some(text) => Done(Str(text), cr.value + 2)
  }

  function Error(buf: seq<Byte>): (r: Outcome)
    requires buf != [] && buf[0] == ERROR
    ensures r.Done? ==> 0 < r.consumed <= |buf|
  {
    var cr := FindCrlf(buf, 0);
    if cr.None? then Incomplete
    else
      match Decode(buf[1..cr.value])
      case None => Raised(BadText)
      case Some(text) => Done(Str("ERR_" + text), cr.value + 2)
  }

  function Number(buf: seq<Byte>): (r: Outcome)
    requires buf != [] && buf[0] == INTEGER
    ensures r.Done? ==> 0 < r.consumed <= |buf|
  {
    var cr := FindCrlf(buf, 0);
    if cr.None? then Incomplete
    else
      match PyInt(buf[1..cr.value])
      case None => Raised(BadInteger)
      case Some(n) => Done(Integer(n), cr.value + 2)
  }

  function Bulk(buf: seq<Byte>): (r: Outcome)
    requires buf != [] && buf[0] == BULK
    ensures r.Done? ==> 0 < r.consumed <= |buf|
  {
    var cr := FindCrlf(buf, 0);
    if cr.None? then Incomplete
    else
      match PyInt(buf[1..cr.value])
      case None => Raised(BadBulkLength)
      case Some(length) =>
        if length < 0 then Done(Null, cr.value + 2)
        else Payload(buf, cr.value + 2, length)
  }

  /** The bulk payload at `from`; `Done` carries the position after it. */
  function Payload(buf: seq<Byte>, from: nat, length: nat): (r: Outcome)
    requires from <= |buf|
    ensures r.Done? ==> from < r.consumed <= |buf|
  {
    var to := from + length;
    if |buf| < to + 2 then Incomplete
    else if buf[to..to + 2] != [CR, LF] then Raised(MissingCrlf)
    else
      match Decode(buf[from..to])
      case None => Raised(BadText)
      case Some(text) => Done(Str(text), to + 2)
  }

  function Array(buf: seq<Byte>): (r: Outcome)
    requires buf != [] && buf[0] == ARRAY
    ensures r.Done? ==> 0 < r.consumed <= |buf|
    decreases |buf|, 2
  {
    var cr := FindCrlf(buf, 0);
    if cr.None? then Incomplete
    else
      match PyInt(buf[1..cr.value])
      case None => Raised(BadArrayCount)
      case Some(count) =>
        if count < 0 then Done(Null, cr.value + 2)
        else Elements(buf, cr.value + 2, count, [])
  }

  /** The remaining `n` iterations of the element loop, at absolute position `pos`. */
  function Elements(buf: seq<Byte>, pos: nat, n: nat, acc: seq<Value>): (r: Outcome)
    requires 0 < pos <= |buf|
    ensures r.Done? ==> 0 < r.consumed <= |buf|
    decreases |buf|, 1, n
  {
    if n == 0 then Done(Items(acc), pos)
    else if pos >= |buf| then Incomplete
    else
      match Element(buf, pos)
      case Done(v, next) => Elements(buf, next, n - 1, acc + [v])
      case other => other
  }

  /** One iteration: the element at `pos`; `Done` carries the position after it. */
  function Element(buf: seq<Byte>, pos: nat): (r: Outcome)
    requires 0 < pos < |buf|
    ensures r.Done? ==> pos < r.consumed <= |buf|
    decreases |buf|, 0
  {
    var tb := buf[pos];
    if tb == ARRAY then
      match Array(buf[pos..])
      case Done(v, consumed) => Done(v, pos + consumed)
      case other => other
    else Scalar(buf, pos)
  }

  /** The element branches written out inside the loop of `_parse_array`. */
  function Scalar(buf: seq<Byte>, pos: nat): (r: Outcome)
    requires 0 < pos < |buf| && buf[pos] != ARRAY
    ensures r.Done? ==> pos < r.consumed <= |buf|
  {
    var tb := buf[pos];
    var cr := FindCrlf(buf, pos + 1);
    if tb == BULK then
      if cr.None? then Incomplete
      else
        match PyInt(buf[pos + 1..cr.value])
        case None => Raised(BadBulkLength)
        case Some(length) =>
          if length < 0 then Done(Null, cr.value + 2)
          else Payload(buf, cr.value + 2, length)
    else if tb == INTEGER then
      if cr.None? then Incomplete
      else
        match PyInt(buf[pos + 1..cr.value])
        case None => Raised(BadInteger)
        case Some(n) => Done(Integer(n), cr.value + 2)
    else if tb == SIMPLE then
      if cr.None? then Incomplete
      else
        match Decode(buf[pos + 1..cr.value])
        case None => Raised(BadText)
        case Some(text) => Done(Str(text), cr.value + 2)
    else if tb == ERROR then
      if cr.None? then Incomplete
      else
        match Decode(buf[pos + 1..cr.value])
        case None => Raised(BadText)
        case Some(text) => Done(Str("ERR_" + text), cr.value + 2)
    else
      Raised(UnexpectedType(tb))
  }

  /** Index and length of the line end: CRLF anywhere in the buffer wins over a bare LF. */
  function LineEnd(buf: seq<Byte>): (r: Option<(nat, nat)>)
    ensures r.Some? ==> 1 <= r.value.1 <= 2 && r.value.0 + r.value.1 <= |buf|
  {
    var crlf := FindCrlf(buf, 0);
    if crlf.Some? then Some((crlf.value, 2))
    else
      var lf := FindLf(buf, 0);
      if lf.Some? then Some((lf.value, 1)) else None
  }

  function Words(tokens: seq<string>): (r: seq<Value>)
    ensures |r| == |tokens| && forall i :: 0 <= i < |r| ==> r[i] == Str(tokens[i])
  {
    seq(|tokens|, i requires 0 <= i < |tokens| => Str(tokens[i]))
  }

  /** The arguments of one line of text. */
  function Arguments(text: string): Value {
    Items(Words(Inline.TokensFrom(Inline.Strip(text), 0)))
  }

  /** The message of one inline line, line end excluded. */
  function Line(line: seq<Byte>, consumed: nat): Outcome {
    match Decode(line)
    case None => Raised(BadText)
    case Some(text) => Done(Arguments(text), consumed)
  }

  function Command(buf: seq<Byte>): (r: Outcome)
    ensures r.Done? ==> 0 < r.consumed <= |buf|
  {
    var end := LineEnd(buf);
    if end.None? then Incomplete
    else Line(buf[..end.value.0], end.value.0 + end.value.1)
  }

  /** `_parse_message`: one attempt on the whole buffer. */
  function Message(buf: seq<Byte>): (r: Outcome)
    ensures buf == [] ==> r.Incomplete?
    ensures r.Done? ==> 0 < r.consumed <= |buf|
  {
    if buf == [] then Incomplete
    else if buf[0] == ARRAY then Array(buf)
    else if buf[0] == BULK then Bulk(buf)
    else if buf[0] == SIMPLE then Simple(buf)
    else if buf[0] == ERROR then Error(buf)
    else if buf[0] == INTEGER then Number(buf)
    else Command(buf)
  }

  // ---------------------------------------------------------------- feeding

  /** What a call of `feed` gives its caller, and what is left in the buffer. */
  datatype Feed =
    | Fed(messages: seq<Value>, rest: seq<Byte>)
    | Broken(fault: Fault)

  function Prepend(messages: seq<Value>, feed: Feed): Feed {
    if feed.Fed? then Fed(messages + feed.messages, feed.rest) else feed
  }

  /** All messages at the front of `buf`, and the incomplete rest. */
  function Drain(buf: seq<Byte>): Feed
    decreases |buf|
  {
    match Message(buf)
    case Incomplete => Fed([], buf)
    case Raised(fault) => Broken(fault)
    case Done(v, consumed) => Prepend([v], Drain(buf[consumed..]))
  }

  /** One call of `feed` on a parser that holds `buffer`. */
  function FeedOnce(limit: nat, buffer: seq<Byte>, data: seq<Byte>): Feed {
    if |buffer + data| > limit then Broken(Overflow) else Drain(buffer + data)
  }

  // ---------------------------------------------------------------- what a fault leaves behind

  /**
   * The buffer after `_parse_array` has raised: the slice of the innermost array it was in, since
   * only a nested parse that returns swaps the outer buffer back.
   */
  function ArrayLeft(buf: seq<Byte>): seq<Byte>
    requires buf != [] && buf[0] == ARRAY
    decreases |buf|, 1
  {
    var cr := FindCrlf(buf, 0);
    if cr.None? || PyInt(buf[1..cr.value]).None? || PyInt(buf[1..cr.value]).value < 0 then buf
    else ElementsLeft(buf, cr.value + 2, PyInt(buf[1..cr.value]).value)
  }

  function ElementsLeft(buf: seq<Byte>, pos: nat, n: nat): seq<Byte>
    requires 0 < pos <= |buf|
    decreases |buf|, 0, n
  {
    if n == 0 || pos == |buf| then buf
    else if Element(buf, pos).Done? then ElementsLeft(buf, Element(buf, pos).consumed, n - 1)
    else if buf[pos] == ARRAY then ArrayLeft(buf[pos..])
    else buf
  }

  /** The buffer after `_parse_message` has raised. */
  function MessageLeft(buf: seq<Byte>): seq<Byte> {
    if buf != [] && buf[0] == ARRAY then ArrayLeft(buf) else buf
  }

  /** The buffer after `feed` has raised a fault of a message. */
  function DrainLeft(buf: seq<Byte>): seq<Byte>
    decreases |buf|
  {
    match Message(buf)
    case Incomplete => buf
    case Raised(_) => MessageLeft(buf)
    case Done(_, consumed) => DrainLeft(buf[consumed..])
  }

  /** The slice left behind is an array that raises the same fault, and the end of the buffer. */
  lemma {:induction false} ArrayLeftRaises(buf: seq<Byte>)
    requires buf != [] && buf[0] == ARRAY && Array(buf).Raised?
    ensures var left := ArrayLeft(buf);
            left != [] && left[0] == ARRAY && Array(left) == Array(buf) && |left| <= |buf|
            && left == buf[|buf| - |left|..]
    decreases |buf|, 1
  {
    hide FindCrlf, PyInt, Element, Elements;
    var cr := FindCrlf(buf, 0);
    if cr.Some? && PyInt(buf[1..cr.value]).Some? && PyInt(buf[1..cr.value]).value >= 0 {
      ElementsLeftRaises(buf, cr.value + 2, PyInt(buf[1..cr.value]).value, []);
    }
  }

  lemma {:induction false} ElementsLeftRaises(buf: seq<Byte>, pos: nat, n: nat, acc: seq<Value>)
    requires 0 < pos <= |buf| && buf[0] == ARRAY && Array(buf) == Elements(buf, pos, n, acc)
    requires Elements(buf, pos, n, acc).Raised?
    ensures var left := ElementsLeft(buf, pos, n);
            left != [] && left[0] == ARRAY && Array(left) == Array(buf) && |left| <= |buf|
            && left == buf[|buf| - |left|..]
    decreases |buf|, 0, n
  {
    hide Array, ArrayLeft, Scalar;
    if n > 0 && pos < |buf| {
      if Element(buf, pos).Done? {
        ElementsLeftRaises(buf, Element(buf, pos).consumed, n - 1, acc + [Element(buf, pos).value]);
      } else if buf[pos] == ARRAY {
        ArrayLeftRaises(buf[pos..]);
      }
    }
  }

  // ---------------------------------------------------------------- the stateful parser

  class RespParser {
    var buffer: seq<Byte>
    const maxBufferSize: nat

    constructor (limit: Option<nat>)
      ensures buffer == []
      ensures maxBufferSize == if limit.Some? && limit.value != 0 then limit.value else 1024 * 1024
    {
      buffer := [];
      maxBufferSize := if limit.Some? && limit.value != 0 then limit.value else 1024 * 1024;
    }

    /**
     * `_parse_array`. A nested array swaps `buffer` for its slice and swaps it back on return, but
     * not when the nested parse raises: then the slice of the nested array stays behind.
     */
    method ParseArray() returns (r: Outcome)
      requires buffer != [] && buffer[0] == ARRAY
      modifies this`buffer
      ensures r == Array(old(buffer))
      ensures buffer == if r.Raised? then ArrayLeft(old(buffer)) else old(buffer)
      decreases |buffer|
    {
      hide Decode, PyInt, FindCrlf, Payload;
      var buf := buffer;
      var cr := FindCrlf(buf, 0);
      if cr.None? {
        return Incomplete;
      }
      var number := PyInt(buf[1..cr.value]);
      if number.None? {
        return Raised(BadArrayCount);
      }
      var count := number.value;
      if count < 0 {
        return Done(Null, cr.value + 2);
      }
      var pos := cr.value + 2;
      var items: seq<Value> := [];
      for i := 0 to count
        invariant buffer == buf && 0 < pos <= |buf|
        invariant Array(buf) == Elements(buf, pos, count - i, items)
        invariant ArrayLeft(buf) == ElementsLeft(buf, pos, count - i)
      {
        if pos >= |buf| {
          return Incomplete;
        }
        if buf[pos] == ARRAY {
          var saved := buffer;
          buffer := buf[pos..];
          var nested := ParseArray();
          if nested.Raised? {
            return nested;
          }
          buffer := saved;
          if nested.Incomplete? {
            return Incomplete;
          }
          items := items + [nested.value];
          pos := pos + nested.consumed;
        } else {
          var scalar := Scalar(buf, pos);
          if !scalar.Done? {
            return scalar;
          }
          items := items + [scalar.value];
          pos := scalar.consumed;
        }
      }
      r := Done(Items(items), pos);
    }

    /** `_parse_inline_command`. */
    method ParseCommand() returns (r: Outcome)
      ensures r == Command(buffer)
    {
      hide Decode, LineEnd, Inline.Strip;
      var end := LineEnd(buffer);
      if end.None? {
        return Incomplete;
      }
      var (index, length) := end.value;
      var text := Decode(buffer[..index]);
      if text.None? {
        return Raised(BadText);
      }
      var line := Inline.Strip(text.value);
      if line == "" {
        return Done(Items([]), index + length);
      }
      var parts := Inline.Split(line);
      r := Done(Items(Words(parts)), index + length);
    }

    /** `_parse_message`. */
    method ParseMessage() returns (r: Outcome)
      modifies this`buffer
      ensures r == Message(old(buffer))
      ensures buffer == if r.Raised? then MessageLeft(old(buffer)) else old(buffer)
    {
      if buffer == [] {
        r := Incomplete;
      } else if buffer[0] == ARRAY {
        r := ParseArray();
      } else if buffer[0] == BULK {
        r := Bulk(buffer);
      } else if buffer[0] == SIMPLE {
        r := Simple(buffer);
      } else if buffer[0] == ERROR {
        r := Error(buffer);
      } else if buffer[0] == INTEGER {
        r := Number(buffer);
      } else {
        r := ParseCommand();
      }
    }

    /**
     * `feed`: all complete messages of the buffer extended by `data`, in order. When a message
     * raises, the messages parsed before it in the same call are lost to the caller.
     */
    method Feed(data: seq<Byte>) returns (r: Feed)
      modifies this`buffer
      ensures r == FeedOnce(maxBufferSize, old(buffer), data)
      ensures |old(buffer) + data| > maxBufferSize ==> r == Broken(Overflow) && buffer == []
      ensures r.Fed? ==> buffer == r.rest
      ensures r.Broken? && |old(buffer) + data| <= maxBufferSize ==> buffer == DrainLeft(old(buffer) + data)
    {
      hide Message, MessageLeft;
      buffer := buffer + data;
      if |buffer| > maxBufferSize {
        buffer := [];
        return Broken(Overflow);
      }
      ghost var whole := buffer;
      var messages: seq<Value> := [];
      while true
        invariant Drain(whole) == Prepend(messages, Drain(buffer)) && DrainLeft(whole) == DrainLeft(buffer)
        decreases |buffer|
      {
        ghost var before := buffer;
        var outcome := ParseMessage();
        match outcome {
          case Incomplete =>
            return Fed(messages, buffer);
          case Raised(fault) =>
            return Broken(fault);
          case Done(v, consumed) =>
            messages := messages + [v];
            buffer := buffer[consumed..];
        }
      }
    }
  }
}
