/**
 * Vocabulary shared by the two RESP2 parsers and the serializer: the decoded values, the result
 * of one parse attempt, `bytes.find`, Python's `int()` on bytes and decimal formatting.
 */
module Wire {
  import opened Wrappers
  import opened Text

  /** What a RESP frame decodes to: None, int, str or list. */
  datatype Value =
    | Null
    | Integer(n: int)
    | Str(text: string)
    | Items(elems: seq<Value>)

  /** Why a parser raises. All but `BadText` (UnicodeDecodeError) are protocol errors. */
  datatype Fault =
    | BadInteger
    | BadBulkLength
    | BadArrayCount
    | MissingCrlf
    | UnexpectedType(b: Byte)
    | BadText
    | Overflow

  /** One parse attempt; `Incomplete` is the code's `(None, 0)`. */
  datatype Outcome =
    | Incomplete
    | Done(value: Value, consumed: nat)
    | Raised(fault: Fault)

  const ARRAY: Byte := 42
  const BULK: Byte := 36
  const SIMPLE: Byte := 43
  const ERROR: Byte := 45
  const INTEGER: Byte := 58

  predicate IsType(b: Byte) {
    b == ARRAY || b == BULK || b == SIMPLE || b == ERROR || b == INTEGER
  }

  // ---------------------------------------------------------------- bytes.find

  predicate CrlfAt(s: seq<Byte>, k: int) {
    0 <= k && k + 1 < |s| && s[k] == CR && s[k + 1] == LF
  }

  /** `s.find(b"\r\n", start)`. */
  function FindCrlf(s: seq<Byte>, start: nat): (r: Option<nat>)
    ensures r.Some? ==> start <= r.value && CrlfAt(s, r.value)
    ensures r.Some? ==> forall k :: start <= k < r.value ==> !CrlfAt(s, k)
    ensures r.None? ==> forall k :: start <= k ==> !CrlfAt(s, k)
    decreases |s| - start
  {
    if start >= |s| then None
    else if CrlfAt(s, start) then Some(start)
    else FindCrlf(s, start + 1)
  }

  /** `s.find(b"\n", start)`. */
  function FindLf(s: seq<Byte>, start: nat): (r: Option<nat>)
    ensures r.Some? ==> start <= r.value < |s| && s[r.value] == LF
    ensures r.Some? ==> forall k :: start <= k < r.value ==> s[k] != LF
    ensures r.None? ==> forall k :: start <= k < |s| ==> s[k] != LF
    decreases |s| - start
  {
    if start >= |s| then None
    else if s[start] == LF then Some(start)
    else FindLf(s, start + 1)
  }

  lemma FindCrlfAppend(s: seq<Byte>, t: seq<Byte>, start: nat)
    requires FindCrlf(s, start).Some?
    ensures FindCrlf(s + t, start) == FindCrlf(s, start)
  {
    var k := FindCrlf(s, start).value;
    assert CrlfAt(s + t, k);
    assert forall j :: start <= j < k ==> CrlfAt(s + t, j) == CrlfAt(s, j);
  }

  lemma FindCrlfTake(s: seq<Byte>, n: nat, start: nat)
    requires n <= |s|
    requires FindCrlf(s, start).Some? && FindCrlf(s, start).value + 2 <= n
    ensures FindCrlf(s[..n], start) == FindCrlf(s, start)
  {
    var k := FindCrlf(s, start).value;
    assert CrlfAt(s[..n], k);
    assert forall j :: start <= j < k ==> CrlfAt(s[..n], j) == CrlfAt(s, j);
  }

  lemma FindCrlfShift(s: seq<Byte>, d: nat, start: nat)
    requires d <= |s|
    ensures FindCrlf(s, d + start).None? <==> FindCrlf(s[d..], start).None?
    ensures FindCrlf(s, d + start).Some? ==> FindCrlf(s, d + start).value == d + FindCrlf(s[d..], start).value
  {
    assert forall j :: CrlfAt(s[d..], j) ==> CrlfAt(s, d + j);
    assert forall j :: j >= d && CrlfAt(s, j) ==> CrlfAt(s[d..], j - d);
  }

  /** The line terminator is found right after a body without CR at or after `start`. */
  lemma FindCrlfAfter(head: seq<Byte>, tail: seq<Byte>, start: nat)
    requires start <= |head|
    requires forall k :: start <= k < |head| ==> !CrlfAt(head + [CR, LF], k)
    ensures FindCrlf(head + [CR, LF] + tail, start) == Some(|head|)
  {
    var s := head + [CR, LF] + tail;
    assert CrlfAt(s, |head|);
    assert forall k :: start <= k < |head| ==> CrlfAt(s, k) == CrlfAt(head + [CR, LF], k);
  }

  // ---------------------------------------------------------------- int()

  predicate IsDigit(b: Byte) {
    48 <= b <= 57
  }

  predicate IsSpace(b: Byte) {
    b == 32 || 9 <= b <= 13
  }

  function DropSpaces(s: seq<Byte>): seq<Byte> {
    if s != [] && IsSpace(s[0]) then DropSpaces(s[1..]) else s
  }

  function DropTrailingSpaces(s: seq<Byte>): seq<Byte> {
    if s != [] && IsSpace(s[|s| - 1]) then DropTrailingSpaces(s[..|s| - 1]) else s
  }

  /** Decimal digits, with single underscores allowed between digits. */
  function Digits(s: seq<Byte>): Option<nat> {
    if s == [] || !IsDigit(s[|s| - 1]) then None
    else
      var last := s[|s| - 1] - 48;
      var init := s[..|s| - 1];
      if init == [] then Some(last)
      else
        var head := if init[|init| - 1] == 95 then init[..|init| - 1] else init;
        match Digits(head)
        case None => None
        case Some(n) => Some(10 * n + last)
  }

  /** `int(b)` on a bytes-like value, `None` standing for ValueError. */
  function PyInt(b: seq<Byte>): Option<int> {
    var s := DropTrailingSpaces(DropSpaces(b));
    if s != [] && s[0] == 45 then
      match Digits(s[1..])
      case None => None
      case Some(n) => Some(-(n as int))
    else if s != [] && s[0] == 43 then
      Digits(s[1..])
    else
      Digits(s)
  }

  // ---------------------------------------------------------------- decimal formatting

  /** `str(n)` for a natural number, as bytes. */
  function Decimal(n: nat): (r: seq<Byte>)
    ensures r != [] && forall i :: 0 <= i < |r| ==> IsDigit(r[i])
  {
    if n < 10 then [48 + n] else Decimal(n / 10) + [48 + n % 10]
  }

  /** `str(n)`, as bytes. */
  function Signed(n: int): (r: seq<Byte>)
    ensures r != [] && IsDigit(r[|r| - 1]) && forall i :: 0 <= i < |r| ==> IsDigit(r[i]) || r[i] == 45
  {
    if n < 0 then [45] + Decimal(-n) else Decimal(n)
  }

  lemma {:induction false} DigitsOfDecimal(n: nat)
    ensures Digits(Decimal(n)) == Some(n)
  {
    if n >= 10 {
      DigitsOfDecimal(n / 10);
      assert Decimal(n)[..|Decimal(n)| - 1] == Decimal(n / 10);
    }
  }

  /** Formatting an integer and reading it back with `int()` is the identity. */
  lemma PyIntOfSigned(n: int)
    ensures PyInt(Signed(n)) == Some(n)
  {
    assert DropTrailingSpaces(DropSpaces(Signed(n))) == Signed(n);
    if n < 0 {
      DigitsOfDecimal(-n);
      assert Signed(n)[1..] == Decimal(-n);
    } else {
      DigitsOfDecimal(n);
    }
  }

  // ---------------------------------------------------------------- what int() accepts

  const UNDERSCORE: Byte := 95

  /** A digit, or an underscore with a digit behind it. */
  predicate GroupedAt(s: seq<Byte>, i: nat)
    requires i < |s|
  {
    IsDigit(s[i]) || (s[i] == UNDERSCORE && i < |s| - 1 && IsDigit(s[i + 1]))
  }

  /** Digits, with single underscores between digits. */
  predicate Grouped(s: seq<Byte>) {
    s != [] && IsDigit(s[0]) && forall i :: 0 <= i < |s| ==> GroupedAt(s, i)
  }

  /** The digits alone. */
  function Plain(s: seq<Byte>): seq<Byte> {
    if s == [] then [] else (if s[0] == UNDERSCORE then [] else [s[0]]) + Plain(s[1..])
  }

  function Power(n: nat): nat {
    if n == 0 then 1 else 10 * Power(n - 1)
  }

  /** The number that the digits stand for, each by its place. */
  function Worth(digits: seq<Byte>): int {
    if digits == [] then 0 else (digits[0] - 48) * Power(|digits| - 1) + Worth(digits[1..])
  }

  lemma {:induction false} WorthSnoc(digits: seq<Byte>, d: Byte)
    ensures Worth(digits + [d]) == 10 * Worth(digits) + (d - 48)
  {
    if digits != [] {
      assert (digits + [d])[1..] == digits[1..] + [d];
      WorthSnoc(digits[1..], d);
    } else {
      assert [d][1..] == [];
    }
  }

  lemma {:induction false} PlainSnoc(s: seq<Byte>, d: Byte)
    ensures Plain(s + [d]) == Plain(s) + if d == UNDERSCORE then [] else [d]
  {
    if s == [] {
      assert s + [d] == [d] && [d][1..] == [];
    } else {
      assert (s + [d])[1..] == s[1..] + [d];
      PlainSnoc(s[1..], d);
    }
  }

  /** What is left in front of the last digit, and of an underscore before it. */
  function Front(s: seq<Byte>): seq<Byte>
    requires s != []
  {
    var init := s[..|s| - 1];
    if init != [] && init[|init| - 1] == UNDERSCORE then init[..|init| - 1] else init
  }

  lemma FrontIs(s: seq<Byte>)
    requires s != []
    ensures s == Front(s) + [s[|s| - 1]] || s == Front(s) + [UNDERSCORE] + [s[|s| - 1]]
  {
    var n := |s| - 1;
    if n > 0 && s[n - 1] == UNDERSCORE {
      assert Front(s) == s[..n - 1];
    }
  }

  lemma PlainFront(s: seq<Byte>)
    requires s != [] && IsDigit(s[|s| - 1])
    ensures Plain(s) == Plain(Front(s)) + [s[|s| - 1]]
  {
    hide Plain, Front;
    var f, d := Front(s), s[|s| - 1];
    FrontIs(s);
    PlainSnoc(f, d);
    PlainSnoc(f, UNDERSCORE);
    PlainSnoc(f + [UNDERSCORE], d);
    assert Plain(f) + [] == Plain(f);
  }

  lemma GroupedFront(s: seq<Byte>)
    requires |s| > 1 && IsDigit(s[|s| - 1])
    ensures Grouped(s) <==> Grouped(Front(s))
  {
    var f, n := Front(s), |s| - 1;
    assert |f| == if s[n - 1] == UNDERSCORE then n - 1 else n;
    assert forall i :: 0 <= i < |f| ==> f[i] == s[i];
    if Grouped(s) {
      assert GroupedAt(s, n - 1) && (n >= 2 ==> GroupedAt(s, n - 2));
      forall i | 0 <= i < |f| ensures GroupedAt(f, i) {
        assert GroupedAt(s, i);
      }
    }
    if Grouped(f) {
      assert GroupedAt(f, |f| - 1);
      forall i | 0 <= i < |s| ensures GroupedAt(s, i) {
        if i < |f| {
          assert GroupedAt(f, i);
        }
      }
    }
  }

  lemma GroupedEnds(s: seq<Byte>)
    requires Grouped(s)
    ensures IsDigit(s[|s| - 1])
  {
    assert GroupedAt(s, |s| - 1);
  }

  /** Exactly such digits are read, and by their places. */
  lemma {:induction false} DigitsIff(s: seq<Byte>)
    ensures Digits(s).Some? <==> Grouped(s)
    ensures Digits(s).Some? ==> Digits(s).value == Worth(Plain(s))
    decreases |s|
  {
    if Grouped(s) {
      GroupedEnds(s);
    }
    if s != [] && IsDigit(s[|s| - 1]) {
      PlainFront(s);
      WorthSnoc(Plain(Front(s)), s[|s| - 1]);
      if |s| > 1 {
        GroupedFront(s);
        DigitsIff(Front(s));
      } else {
        assert Plain(Front(s)) == [];
      }
    }
  }

  predicate Spaces(s: seq<Byte>) {
    forall i :: 0 <= i < |s| ==> s[i] in {9, 10, 11, 12, 13, 32}
  }

  lemma {:induction false} DropSpacesIs(lead: seq<Byte>, t: seq<Byte>)
    requires Spaces(lead) && t != [] && !IsSpace(t[0])
    ensures DropSpaces(lead + t) == t
  {
    if lead == [] {
      assert lead + t == t;
    } else {
      assert (lead + t)[1..] == lead[1..] + t;
      DropSpacesIs(lead[1..], t);
    }
  }

  lemma {:induction false} DropTrailingIs(t: seq<Byte>, trail: seq<Byte>)
    requires Spaces(trail) && t != [] && !IsSpace(t[|t| - 1])
    ensures DropTrailingSpaces(t + trail) == t
  {
    if trail == [] {
      assert t + trail == t;
    } else {
      assert (t + trail)[..|t + trail| - 1] == t + trail[..|trail| - 1];
      DropTrailingIs(t, trail[..|trail| - 1]);
    }
  }

  /** Spaces around, a sign or none, and digits with single underscores between them: the number they stand for. */
  lemma PyIntReads(lead: seq<Byte>, sign: seq<Byte>, body: seq<Byte>, trail: seq<Byte>)
    requires Spaces(lead) && Spaces(trail) && Grouped(body) && (sign == [] || sign == [45] || sign == [43])
    ensures PyInt(lead + sign + body + trail)
            == Some(if sign == [45] then -Worth(Plain(body)) else Worth(Plain(body)))
  {
    hide Digits, Worth, Plain, DropSpaces, DropTrailingSpaces;
    var core := sign + body;
    assert lead + sign + body + trail == lead + (core + trail);
    assert (core + trail)[0] == core[0];
    assert core[0] == if sign == [] then body[0] else sign[0];
    assert core[|core| - 1] == body[|body| - 1];
    GroupedEnds(body);
    DropSpacesIs(lead, core + trail);
    DropTrailingIs(core, trail);
    DigitsIff(body);
    assert sign != [] ==> core[1..] == body;
    assert sign == [] ==> core == body;
  }

  lemma {:induction false} DropsSpaces(s: seq<Byte>) returns (lead: seq<Byte>)
    ensures Spaces(lead) && s == lead + DropSpaces(s)
  {
    if s != [] && IsSpace(s[0]) {
      var rest := DropsSpaces(s[1..]);
      lead := [s[0]] + rest;
      assert s == [s[0]] + s[1..];
    } else {
      lead := [];
    }
  }

  lemma {:induction false} DropsTrailing(s: seq<Byte>) returns (trail: seq<Byte>)
    ensures Spaces(trail) && s == DropTrailingSpaces(s) + trail
  {
    if s != [] && IsSpace(s[|s| - 1]) {
      var rest := DropsTrailing(s[..|s| - 1]);
      trail := rest + [s[|s| - 1]];
      assert s == s[..|s| - 1] + [s[|s| - 1]];
    } else {
      trail := [];
    }
  }

  /** And nothing else is a number. */
  lemma PyIntOnly(b: seq<Byte>) returns (lead: seq<Byte>, sign: seq<Byte>, body: seq<Byte>, trail: seq<Byte>)
    requires PyInt(b).Some?
    ensures Spaces(lead) && Spaces(trail) && Grouped(body) && (sign == [] || sign == [45] || sign == [43])
    ensures b == lead + sign + body + trail
  {
    hide Digits, Grouped, Worth, Plain, DropSpaces, DropTrailingSpaces, Spaces;
    lead := DropsSpaces(b);
    trail := DropsTrailing(DropSpaces(b));
    var core := DropTrailingSpaces(DropSpaces(b));
    sign := if core != [] && (core[0] == 45 || core[0] == 43) then [core[0]] else [];
    body := if sign == [] then core else core[1..];
    DigitsIff(body);
    assert core == sign + body;
    assert b == lead + (core + trail);
  }
}
