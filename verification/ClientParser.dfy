/**
 * The client's RESP2 parser (testcore_client/connection.py): element parsers that work on
 * `(buf, offset)` without copying, and arrays by recursion on the offset.
 */
module ClientParser {
  import opened Wrappers
  import opened Text
  import opened Wire

  function SimpleAt(buf: seq<Byte>, off: nat): (r: Outcome)
    requires off < |buf|
    ensures r.Done? ==> 0 < r.consumed <= |buf| - off
  {
    var cr := FindCrlf(buf, off + 1);
    if cr.None? then Incomplete
    else
      match Decode(buf[off + 1..cr.value])
      case None => Raised(BadText)
      case Some(text) => Done(Str(text), cr.value + 2 - off)
  }

  function ErrorAt(buf: seq<Byte>, off: nat): (r: Outcome)
    requires off < |buf|
    ensures r.Done? ==> 0 < r.consumed <= |buf| - off
  {
    var cr := FindCrlf(buf, off + 1);
    if cr.None? then Incomplete
    else
      match Decode(buf[off + 1..cr.value])
      case None => Raised(BadText)
      case Some(text) => Done(Str("ERR_" + text), cr.value + 2 - off)
  }

  function IntegerAt(buf: seq<Byte>, off: nat): (r: Outcome)
    requires off < |buf|
    ensures r.Done? ==> 0 < r.consumed <= |buf| - off
  {
    var cr := FindCrlf(buf, off + 1);
    if cr.None? then Incomplete
    else
      match PyInt(buf[off + 1..cr.value])
      case None => Raised(BadInteger)
      case Some(n) => Done(Integer(n), cr.value + 2 - off)
  }

  function BulkAt(buf: seq<Byte>, off: nat): (r: Outcome)
    requires off < |buf|
    ensures r.Done? ==> 0 < r.consumed <= |buf| - off
  {
    var cr := FindCrlf(buf, off + 1);
    if cr.None? then Incomplete
    else
      match PyInt(buf[off + 1..cr.value])
      case None => Raised(BadBulkLength)
      case Some(length) =>
        if length < 0 then Done(Null, cr.value + 2 - off)
        else BulkBody(buf, off, cr.value + 2, length)
  }

  /** The payload of a bulk string whose length line ends right before `from`. */
  function BulkBody(buf: seq<Byte>, off: nat, from: nat, length: nat): (r: Outcome)
    requires off < from <= |buf|
    ensures r.Done? ==> 0 < r.consumed <= |buf| - off
  {
    var to := from + length;
    if |buf| < to + 2 then Incomplete
    else if buf[to..to + 2] != [CR, LF] then Raised(MissingCrlf)
    else
      match Decode(buf[from..to])
      case None => Raised(BadText)
      case Some(text) => Done(Str(text), to + 2 - off)
  }

  function ArrayAt(buf: seq<Byte>, off: nat): (r: Outcome)
    requires off < |buf|
    ensures r.Done? ==> 0 < r.consumed <= |buf| - off
    decreases |buf| - off, 2
  {
    var cr := FindCrlf(buf, off + 1);
    if cr.None? then Incomplete
    else
      match PyInt(buf[off + 1..cr.value])
      case None => Raised(BadArrayCount)
      case Some(count) =>
        if count < 0 then Done(Null, cr.value + 2 - off)
        else ElementsAt(buf, off, cr.value + 2, count, [])
  }

  /** The remaining `n` iterations of the element loop of the array that starts at `off`. */
  function ElementsAt(buf: seq<Byte>, off: nat, pos: nat, n: nat, acc: seq<Value>): (r: Outcome)
    requires off < pos <= |buf|
    ensures r.Done? ==> 0 < r.consumed <= |buf| - off
    decreases |buf| - off, 1, n
  {
    if n == 0 then Done(Items(acc), pos - off)
    else if pos >= |buf| then Incomplete
    else
      match ElementAt(buf, pos)
      case Done(v, c) => ElementsAt(buf, off, pos + c, n - 1, acc + [v])
      case other => other
  }

  /** Dispatch on the type byte at `off`. */
  function ElementAt(buf: seq<Byte>, off: nat): (r: Outcome)
    requires off < |buf|
    ensures r.Done? ==> 0 < r.consumed <= |buf| - off
    decreases |buf| - off, 3
  {
    var tb := buf[off];
    if tb == BULK then BulkAt(buf, off)
    else if tb == INTEGER then IntegerAt(buf, off)
    else if tb == SIMPLE then SimpleAt(buf, off)
    else if tb == ERROR then ErrorAt(buf, off)
    else if tb == ARRAY then ArrayAt(buf, off)
    else Raised(UnexpectedType(tb))
  }

  /** `Connection._try_parse` on the whole receive buffer. */
  function TryParse(buf: seq<Byte>): (r: Outcome)
    ensures r.Done? ==> 0 < r.consumed <= |buf|
  {
    if buf == [] then Incomplete else ElementAt(buf, 0)
  }

  /** `Connection._parse_array`: the element loop, recursive on nested arrays. */
  method ParseArray(buf: seq<Byte>, offset: nat) returns (r: Outcome)
    requires offset < |buf|
    ensures r == ArrayAt(buf, offset)
    decreases |buf| - offset
  {
    hide Decode, PyInt, FindCrlf;
    var cr := FindCrlf(buf, offset + 1);
    if cr.None? {
      return Incomplete;
    }
    var number := PyInt(buf[offset + 1..cr.value]);
    if number.None? {
      return Raised(BadArrayCount);
    }
    var count := number.value;
    if count < 0 {
      return Done(Null, cr.value + 2 - offset);
    }
    var pos := cr.value + 2;
    var items: seq<Value> := [];
    for i := 0 to count
      invariant offset < pos <= |buf|
      invariant ArrayAt(buf, offset) == ElementsAt(buf, offset, pos, count - i, items)
    {
      if pos >= |buf| {
        return Incomplete;
      }
      var tb := buf[pos];
      var result: Outcome;
      if tb == BULK {
        result := BulkAt(buf, pos);
      } else if tb == INTEGER {
        result := IntegerAt(buf, pos);
      } else if tb == SIMPLE {
        result := SimpleAt(buf, pos);
      } else if tb == ERROR {
        result := ErrorAt(buf, pos);
      } else if tb == ARRAY {
        result := ParseArray(buf, pos);
      } else {
        result := Raised(UnexpectedType(tb));
      }
      if !result.Done? {
        return result;
      }
      items := items + [result.value];
      pos := pos + result.consumed;
    }
    r := Done(Items(items), pos - offset);
  }

  // ---------------------------------------------------------------- appended bytes

  /** A frame that was read or rejected stays so, identically, when more bytes arrive. */
  lemma {:induction false} Stable(buf: seq<Byte>, off: nat, t: seq<Byte>)
    requires off < |buf|
    requires !ElementAt(buf, off).Incomplete?
    ensures ElementAt(buf + t, off) == ElementAt(buf, off)
    decreases |buf| - off, 1
  {
    hide Decode, PyInt, FindCrlf;
    var ext := buf + t;
    if !IsType(buf[off]) {
      return;
    }
    FindCrlfAppend(buf, t, off + 1);
    var cr := FindCrlf(buf, off + 1).value;
    assert ext[off + 1..cr] == buf[off + 1..cr];
    if buf[off] == BULK {
      var length := PyInt(buf[off + 1..cr]);
      if length.Some? && length.value >= 0 {
        var from := cr + 2;
        var to := from + length.value;
        assert ext[to..to + 2] == buf[to..to + 2];
        assert ext[from..to] == buf[from..to];
      }
    } else if buf[off] == ARRAY {
      var count := PyInt(buf[off + 1..cr]);
      if count.Some? && count.value >= 0 {
        StableElements(buf, off, cr + 2, count.value, [], t);
      }
    }
  }

  lemma {:induction false} StableElements(buf: seq<Byte>, off: nat, pos: nat, n: nat, acc: seq<Value>, t: seq<Byte>)
    requires off < pos <= |buf|
    requires !ElementsAt(buf, off, pos, n, acc).Incomplete?
    ensures ElementsAt(buf + t, off, pos, n, acc) == ElementsAt(buf, off, pos, n, acc)
    decreases |buf| - off, 0, n
  {
    hide Decode, PyInt, FindCrlf;
    if n > 0 {
      Stable(buf, pos, t);
      match ElementAt(buf, pos)
      case Done(v, c) => StableElements(buf, off, pos + c, n - 1, acc + [v], t);
      case _ =>
    }
  }

  // ---------------------------------------------------------------- dropped bytes

  lemma TakeSlice(buf: seq<Byte>, k: nat, i: nat, j: nat)
    requires i <= j <= k <= |buf|
    ensures buf[..k][i..j] == buf[i..j]
  {
  }

  /** A frame depends on its own bytes only: whatever follows it may be cut off. */
  lemma {:induction false} Local(buf: seq<Byte>, off: nat, k: nat)
    requires off < |buf|
    requires ElementAt(buf, off).Done? && off + ElementAt(buf, off).consumed <= k <= |buf|
    ensures ElementAt(buf[..k], off) == ElementAt(buf, off)
    decreases |buf| - off, 1
  {
    hide Decode, PyInt, FindCrlf;
    var cut := buf[..k];
    var cr := FindCrlf(buf, off + 1).value;
    if buf[off] == ARRAY && PyInt(buf[off + 1..cr]).Some? && PyInt(buf[off + 1..cr]).value >= 0 {
      ElementsGrow(buf, off, cr + 2, PyInt(buf[off + 1..cr]).value, []);
    }
    FindCrlfTake(buf, k, off + 1);
    TakeSlice(buf, k, off + 1, cr);
    if buf[off] == BULK {
      var length := PyInt(buf[off + 1..cr]).value;
      if length >= 0 {
        var from := cr + 2;
        var to := from + length;
        TakeSlice(buf, k, to, to + 2);
        TakeSlice(buf, k, from, to);
      }
    } else if buf[off] == ARRAY {
      var count := PyInt(buf[off + 1..cr]).value;
      if count >= 0 {
        LocalElements(buf, off, cr + 2, count, [], k);
      }
    }
  }

  lemma {:induction false} LocalElements(buf: seq<Byte>, off: nat, pos: nat, n: nat, acc: seq<Value>, k: nat)
    requires off < pos <= k <= |buf|
    requires ElementsAt(buf, off, pos, n, acc).Done? && off + ElementsAt(buf, off, pos, n, acc).consumed <= k
    ensures ElementsAt(buf[..k], off, pos, n, acc) == ElementsAt(buf, off, pos, n, acc)
    decreases |buf| - off, 0, n
  {
    hide Decode, PyInt, FindCrlf;
    if n > 0 {
      var e := ElementAt(buf, pos);
      ElementsGrow(buf, off, pos + e.consumed, n - 1, acc + [e.value]);
      Local(buf, pos, k);
      LocalElements(buf, off, pos + e.consumed, n - 1, acc + [e.value], k);
    }
  }

  /** The element loop only moves forward. */
  lemma {:induction false} ElementsGrow(buf: seq<Byte>, off: nat, pos: nat, n: nat, acc: seq<Value>)
    requires off < pos <= |buf|
    requires ElementsAt(buf, off, pos, n, acc).Done?
    ensures off + ElementsAt(buf, off, pos, n, acc).consumed >= pos + n
    decreases n
  {
    hide Decode, PyInt, FindCrlf;
    if n > 0 {
      var e := ElementAt(buf, pos);
      ElementsGrow(buf, off, pos + e.consumed, n - 1, acc + [e.value]);
    }
  }

  // ---------------------------------------------------------------- moved bytes

  lemma ShiftLine(buf: seq<Byte>, d: nat, off: nat)
    requires d + off < |buf|
    ensures SimpleAt(buf, d + off) == SimpleAt(buf[d..], off)
    ensures ErrorAt(buf, d + off) == ErrorAt(buf[d..], off)
    ensures IntegerAt(buf, d + off) == IntegerAt(buf[d..], off)
  {
    hide Decode, PyInt, FindCrlf;
    FindCrlfShift(buf, d, off + 1);
    var cr := FindCrlf(buf, d + off + 1);
    if cr.Some? {
      assert buf[d..][off + 1..cr.value - d] == buf[d + off + 1..cr.value];
    }
  }

  lemma ShiftBody(buf: seq<Byte>, d: nat, off: nat, from: nat, length: nat)
    requires d <= |buf| && off < from <= |buf| - d
    ensures BulkBody(buf, d + off, d + from, length) == BulkBody(buf[d..], off, from, length)
  {
    hide Decode, PyInt, FindCrlf;
    var to := from + length;
    if d + to + 2 <= |buf| {
      assert buf[d..][to..to + 2] == buf[d + to..d + to + 2];
      assert buf[d..][from..to] == buf[d + from..d + to];
    }
  }

  lemma ShiftBulk(buf: seq<Byte>, d: nat, off: nat)
    requires d + off < |buf|
    ensures BulkAt(buf, d + off) == BulkAt(buf[d..], off)
  {
    hide Decode, PyInt, FindCrlf;
    FindCrlfShift(buf, d, off + 1);
    var cr := FindCrlf(buf, d + off + 1);
    if cr.Some? {
      assert buf[d..][off + 1..cr.value - d] == buf[d + off + 1..cr.value];
      var length := PyInt(buf[d + off + 1..cr.value]);
      if length.Some? && length.value >= 0 {
        ShiftBody(buf, d, off, cr.value + 2 - d, length.value);
      }
    }
  }

  /** Parsing at an offset is parsing the slice that starts there. */
  lemma {:induction false} Shift(buf: seq<Byte>, d: nat, off: nat)
    requires d + off < |buf|
    ensures ElementAt(buf, d + off) == ElementAt(buf[d..], off)
    decreases |buf| - off, 1
  {
    hide BulkAt, BulkBody, SimpleAt, IntegerAt, ErrorAt;
    hide Decode, PyInt, FindCrlf;
    if buf[d + off] == ARRAY {
      FindCrlfShift(buf, d, off + 1);
      var cr := FindCrlf(buf, d + off + 1);
      if cr.Some? {
        assert buf[d..][off + 1..cr.value - d] == buf[d + off + 1..cr.value];
        var count := PyInt(buf[d + off + 1..cr.value]);
        if count.Some? && count.value >= 0 {
          ShiftElements(buf, d, off, cr.value + 2 - d, count.value, []);
        }
      }
      assert ArrayAt(buf, d + off) == ArrayAt(buf[d..], off);
    } else {
      ShiftLine(buf, d, off);
      ShiftBulk(buf, d, off);
    }
  }

  lemma {:induction false} ShiftElements(buf: seq<Byte>, d: nat, off: nat, pos: nat, n: nat, acc: seq<Value>)
    requires d <= |buf| && off < pos <= |buf| - d
    ensures ElementsAt(buf, d + off, d + pos, n, acc) == ElementsAt(buf[d..], off, pos, n, acc)
    decreases |buf| - off, 0, n
  {
    hide Decode, PyInt, FindCrlf;
    if n > 0 && d + pos < |buf| {
      Shift(buf, d, pos);
      match ElementAt(buf[d..], pos)
      case Done(v, c) => ShiftElements(buf, d, off, pos + c, n - 1, acc + [v]);
      case _ =>
    }
  }

  // ---------------------------------------------------------------- declared counts

  /** Every element of an array that was read took at least one byte after the count line. */
  lemma {:induction false} ElementsCount(buf: seq<Byte>, off: nat, pos: nat, n: nat, acc: seq<Value>)
    requires off < pos <= |buf|
    requires ElementsAt(buf, off, pos, n, acc).Done?
    ensures ElementsAt(buf, off, pos, n, acc).value.Items?
    ensures |ElementsAt(buf, off, pos, n, acc).value.elems| == |acc| + n
    decreases n
  {
    hide Decode, PyInt, FindCrlf;
    if n > 0 {
      var e := ElementAt(buf, pos);
      ElementsCount(buf, off, pos + e.consumed, n - 1, acc + [e.value]);
    }
  }

  /**
   * Whatever count the frame declares, an array that is read has exactly that many elements and
   * the loop cannot run past the bytes that are there.
   */
  lemma DeclaredCountBounded(buf: seq<Byte>)
    requires buf != [] && buf[0] == ARRAY && TryParse(buf).Done? && TryParse(buf).value.Items?
    ensures FindCrlf(buf, 1).Some?
    ensures PyInt(buf[1..FindCrlf(buf, 1).value]) == Some(|TryParse(buf).value.elems|)
    ensures |TryParse(buf).value.elems| + FindCrlf(buf, 1).value + 2 <= TryParse(buf).consumed <= |buf|
  {
    hide Decode, PyInt, FindCrlf;
    assert TryParse(buf) == ArrayAt(buf, 0);
    var cr := FindCrlf(buf, 1).value;
    var count := PyInt(buf[1..cr]).value;
    ElementsCount(buf, 0, cr + 2, count, []);
    ElementsGrow(buf, 0, cr + 2, count, []);
  }
}
