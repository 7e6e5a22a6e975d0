/**
 * Python's `str`/`bytes` boundary: strict UTF-8 as performed by `.encode('utf-8')` and
 * `.decode('utf-8')`. A Dafny `char` is a Unicode scalar value, which is exactly what an
 * encodable `str` is made of.
 */
module Text {
  import opened Wrappers

  type Byte = b: int | 0 <= b < 256 witness 0

  const CR: Byte := 13
  const LF: Byte := 10

  function EncodeChar(c: char): (b: seq<Byte>)
    ensures 1 <= |b| <= 4
    ensures forall i :: 0 <= i < |b| && b[i] < 0x80 ==> |b| == 1 && b[0] == c as int
  {
    var n := c as int;
    if n < 0x80 then [n]
    else if n < 0x800 then [0xC0 + n / 64, 0x80 + n % 64]
    else if n < 0x1_0000 then [0xE0 + n / 4096, 0x80 + n / 64 % 64, 0x80 + n % 64]
    else [0xF0 + n / 262144, 0x80 + n / 4096 % 64, 0x80 + n / 64 % 64, 0x80 + n % 64]
  }

  function Encode(s: string): seq<Byte> {
    if s == "" then [] else EncodeChar(s[0]) + Encode(s[1..])
  }

  predicate Continuation(b: Byte) {
    0x80 <= b < 0xC0
  }

  predicate ScalarValue(n: int) {
    0 <= n < 0xD800 || 0xE000 <= n < 0x11_0000
  }

  /** The character at the front of `b` and the bytes it takes; `None` where `.decode` raises. */
  function DecodeChar(b: seq<Byte>): (r: Option<(char, nat)>)
    requires b != []
    ensures r.Some? ==> 1 <= r.value.1 <= |b|
    ensures r.Some? && r.value.1 > 1 ==> forall i :: 0 <= i < r.value.1 ==> b[i] >= 0x80
    ensures r.Some? && r.value.1 == 1 ==> r.value.0 as int == b[0]
    ensures r.Some? && r.value.1 > 1 ==> r.value.0 as int >= 0x80
  {
    if b[0] < 0x80 then
      Some((b[0] as char, 1))
    else if 0xC2 <= b[0] < 0xE0 && |b| >= 2 && Continuation(b[1]) then
      Some((((b[0] as int - 0xC0) * 64 + (b[1] - 0x80)) as char, 2))
    else if 0xE0 <= b[0] < 0xF0 && |b| >= 3 && Continuation(b[1]) && Continuation(b[2]) then
      var n := (b[0] as int - 0xE0) * 4096 + (b[1] as int - 0x80) * 64 + (b[2] - 0x80);
      if n >= 0x800 && ScalarValue(n) then Some((n as char, 3)) else None
    else if 0xF0 <= b[0] < 0xF5 && |b| >= 4 && Continuation(b[1]) && Continuation(b[2]) && Continuation(b[3]) then
      var n := (b[0] as int - 0xF0) * 262144 + (b[1] as int - 0x80) * 4096 + (b[2] as int - 0x80) * 64 + (b[3] - 0x80);
      if n >= 0x1_0000 && ScalarValue(n) then Some((n as char, 4)) else None
    else
      None
  }

  /** `b.decode('utf-8')`, `None` standing for UnicodeDecodeError. */
  function Decode(b: seq<Byte>): Option<string> {
    if b == [] then Some("")
    else
      var first := DecodeChar(b);
      if first.None? then None
      else
        var rest := Decode(b[first.value.1..]);
        if rest.None? then None else Some([first.value.0] + rest.value)
  }

  lemma DecodeShortChar(c: char, rest: seq<Byte>)
    requires c as int < 0x800
    ensures DecodeChar(EncodeChar(c) + rest) == Some((c, |EncodeChar(c)|))
  {
    var n := c as int;
    assert n == n / 64 * 64 + n % 64;
  }

  lemma DecodeMediumChar(c: char, rest: seq<Byte>)
    requires 0x800 <= c as int < 0x1_0000
    ensures DecodeChar(EncodeChar(c) + rest) == Some((c, |EncodeChar(c)|))
  {
    var n := c as int;
    assert n == n / 4096 * 4096 + n / 64 % 64 * 64 + n % 64;
  }

  lemma DecodeFourBytes(b: seq<Byte>, p: nat, q: nat, r: nat, t: nat, c: char)
    requires |b| >= 4 && p <= 4 && q < 64 && r < 64 && t < 64
    requires b[0] == 0xF0 + p && b[1] == 0x80 + q && b[2] == 0x80 + r && b[3] == 0x80 + t
    requires c as int == p * 262144 + q * 4096 + r * 64 + t && c as int >= 0x1_0000
    ensures DecodeChar(b) == Some((c, 4))
  {
  }

  lemma SixBitDigits(n: nat)
    ensures n == n / 262144 * 262144 + n / 4096 % 64 * 4096 + n / 64 % 64 * 64 + n % 64
  {
    assert n / 4096 == n / 64 / 64 && n / 262144 == n / 4096 / 64;
  }

  lemma DecodeLongChar(c: char, rest: seq<Byte>)
    requires 0x1_0000 <= c as int
    ensures DecodeChar(EncodeChar(c) + rest) == Some((c, |EncodeChar(c)|))
  {
    var n := c as int;
    SixBitDigits(n);
    var b := EncodeChar(c) + rest;
    hide DecodeChar;
    DecodeFourBytes(b, n / 262144, n / 4096 % 64, n / 64 % 64, n % 64, c);
  }

  lemma DecodeCharOfEncoded(c: char, rest: seq<Byte>)
    ensures DecodeChar(EncodeChar(c) + rest) == Some((c, |EncodeChar(c)|))
  {
    if c as int < 0x800 {
      DecodeShortChar(c, rest);
    } else if c as int < 0x1_0000 {
      DecodeMediumChar(c, rest);
    } else {
      DecodeLongChar(c, rest);
    }
  }

  /** Every string survives encoding followed by decoding. */
  lemma {:induction false} DecodeEncode(s: string)
    ensures Decode(Encode(s)) == Some(s)
  {
    if s != "" {
      DecodeEncode(s[1..]);
      DecodeCharOfEncoded(s[0], Encode(s[1..]));
      assert Encode(s)[|EncodeChar(s[0])|..] == Encode(s[1..]);
      assert s == [s[0]] + s[1..];
    }
  }

  /** Two digits to the base 64 that follow a number. */
  lemma SixBits(high: nat, a: nat, b: nat)
    requires a < 64 && b < 64
    ensures var n := high * 4096 + a * 64 + b; n / 4096 == high && n / 64 % 64 == a && n % 64 == b
  {
    var n := high * 4096 + a * 64 + b;
    assert n == (high * 64 + a) * 64 + b;
    assert n / 64 == high * 64 + a;
    assert n / 4096 == n / 64 / 64;
  }

  lemma FourDigits(p: nat, q: nat, r: nat, t: nat)
    requires q < 64 && r < 64 && t < 64
    ensures var n := p * 262144 + q * 4096 + r * 64 + t;
            n / 262144 == p && n / 4096 % 64 == q && n / 64 % 64 == r && n % 64 == t
  {
    var n := p * 262144 + q * 4096 + r * 64 + t;
    assert n == (p * 64 + q) * 4096 + r * 64 + t;
    SixBits(p * 64 + q, r, t);
    assert n / 262144 == n / 4096 / 64;
  }

  lemma DecodeShortOnly(b: seq<Byte>)
    requires b != [] && DecodeChar(b).Some? && DecodeChar(b).value.1 <= 2
    ensures b[..DecodeChar(b).value.1] == EncodeChar(DecodeChar(b).value.0)
  {
  }

  lemma DecodeMediumOnly(b: seq<Byte>)
    requires b != [] && DecodeChar(b).Some? && DecodeChar(b).value.1 == 3
    ensures b[..3] == EncodeChar(DecodeChar(b).value.0)
  {
    SixBits(b[0] - 0xE0, b[1] - 0x80, b[2] - 0x80);
  }

  lemma DecodeLongOnly(b: seq<Byte>)
    requires b != [] && DecodeChar(b).Some? && DecodeChar(b).value.1 == 4
    ensures b[..4] == EncodeChar(DecodeChar(b).value.0)
  {
    FourDigits(b[0] - 0xF0, b[1] - 0x80, b[2] - 0x80, b[3] - 0x80);
  }

  lemma DecodedLength(b: seq<Byte>)
    requires b != []
    ensures DecodeChar(b).Some? ==> DecodeChar(b).value.1 <= 4
  {
  }

  /** What is decoded at the front is the encoding of the character: no longer form and no surrogate passes. */
  lemma DecodeCharOnly(b: seq<Byte>)
    requires b != [] && DecodeChar(b).Some?
    ensures b[..DecodeChar(b).value.1] == EncodeChar(DecodeChar(b).value.0)
  {
    hide DecodeChar, EncodeChar;
    DecodedLength(b);
    var n := DecodeChar(b).value.1;
    if n <= 2 {
      DecodeShortOnly(b);
    } else if n == 3 {
      DecodeMediumOnly(b);
    } else {
      DecodeLongOnly(b);
    }
  }

  /** Only encodings decode. */
  lemma {:induction false} DecodesOnlyEncodings(b: seq<Byte>)
    requires Decode(b).Some?
    ensures Encode(Decode(b).value) == b
  {
    if b != [] {
      hide DecodeChar, EncodeChar;
      DecodeCharOnly(b);
      var n := DecodeChar(b).value.1;
      DecodesOnlyEncodings(b[n..]);
      assert Decode(b).value[1..] == Decode(b[n..]).value;
      assert b == b[..n] + b[n..];
    }
  }

  lemma {:induction false} EncodeAppend(s: string, t: string)
    ensures Encode(s + t) == Encode(s) + Encode(t)
  {
    if s == "" {
      assert s + t == t;
    } else {
      EncodeAppend(s[1..], t);
      assert (s + t)[1..] == s[1..] + t;
    }
  }

  /** A line feed byte in an encoding comes from a line feed character. */
  lemma {:induction false} EncodeLineFeed(s: string)
    requires LF in Encode(s)
    ensures '\n' in s
  {
    if LF in EncodeChar(s[0]) {
      assert s[0] == '\n';
    } else {
      EncodeLineFeed(s[1..]);
    }
  }

  /** Decoding neither invents nor loses a line feed. */
  lemma {:induction false} DecodeLineFeed(b: seq<Byte>)
    requires Decode(b).Some?
    ensures LF in b <==> '\n' in Decode(b).value
  {
    if b != [] {
      var first := DecodeChar(b).value;
      DecodeLineFeed(b[first.1..]);
      assert b == b[..first.1] + b[first.1..];
      assert first.0 == '\n' <==> LF in b[..first.1];
    }
  }

  lemma DecodeCharPrefix(a: seq<Byte>, b: seq<Byte>)
    requires a != []
    requires DecodeChar(a + [LF] + b).Some?
    ensures DecodeChar(a) == DecodeChar(a + [LF] + b)
  {
    assert (a + [LF] + b)[|a|] == LF;
    assert DecodeChar(a + [LF] + b).value.1 <= |a|;
  }

  /** A line feed byte is always a character of its own, so decoding splits there. */
  lemma {:induction false} DecodeSplit(a: seq<Byte>, b: seq<Byte>)
    requires Decode(a + [LF] + b).Some?
    ensures Decode(a).Some? && Decode(b).Some?
    ensures Decode(a + [LF] + b).value == Decode(a).value + "\n" + Decode(b).value
  {
    var whole := a + [LF] + b;
    if a == [] {
      assert whole[1..] == b;
    } else {
      DecodeCharPrefix(a, b);
      var n := DecodeChar(a).value.1;
      assert whole[n..] == a[n..] + [LF] + b;
      DecodeSplit(a[n..], b);
    }
  }

  // ---------------------------------------------------------------- upper case

  /** The characters `.upper()` turns into one ASCII letter: a-z, dotless i and long s. */
  function UpperChar(c: char): char {
    if 'a' <= c <= 'z' then (c as int - 32) as char
    else if c == '\U{0131}' then 'I'
    else if c == '\U{017F}' then 'S'
    else c
  }

  /** `.upper()`, as far as comparing the result with a command name goes. */
  function Upper(s: string): string {
    seq(|s|, i requires 0 <= i < |s| => UpperChar(s[i]))
  }

  /** `.lower()`, as far as looking for a word of ASCII letters goes. */
  function Lower(s: string): string {
    seq(|s|, i requires 0 <= i < |s| => if 'A' <= s[i] <= 'Z' then (s[i] as int + 32) as char else s[i])
  }

  /** A word of ASCII capitals. */
  predicate IsWord(word: string) {
    forall i :: 0 <= i < |word| ==> 'A' <= word[i] <= 'Z'
  }

  /** `s` is the word in any case, with the two letters outside ASCII that `.upper()` turns into I and S. */
  predicate Spells(s: string, word: string) {
    |s| == |word|
    && forall i :: 0 <= i < |s| ==>
         || s[i] == word[i] || s[i] as int == word[i] as int + 32
         || (word[i] == 'I' && s[i] == '\U{0131}') || (word[i] == 'S' && s[i] == '\U{017F}')
  }

  lemma UpperSpells(s: string, word: string)
    requires IsWord(word)
    ensures Upper(s) == word <==> Spells(s, word)
  {
    if Upper(s) == word {
      forall i | 0 <= i < |s| ensures UpperChar(s[i]) == word[i] {
        assert Upper(s)[i] == word[i];
      }
    }
  }

  // ---------------------------------------------------------------- searching

  /** `part in s`. */
  predicate Contains(s: string, part: string) {
    part <= s || (s != "" && Contains(s[1..], part))
  }

  /** The letters of `part` stand at `i`, one behind the other. */
  predicate OccursAt(s: string, i: int, part: string) {
    0 <= i <= |s| - |part| && s[i..i + |part|] == part
  }

  lemma {:induction false} ContainsIff(s: string, part: string)
    ensures Contains(s, part) <==> exists i :: OccursAt(s, i, part)
    decreases |s|
  {
    assert part <= s <==> OccursAt(s, 0, part);
    if s != "" {
      ContainsIff(s[1..], part);
      forall i | i > 0 ensures OccursAt(s, i, part) <==> OccursAt(s[1..], i - 1, part) {
        if i <= |s| - |part| {
          assert s[1..][i - 1..i - 1 + |part|] == s[i..i + |part|];
        }
      }
      if i :| OccursAt(s[1..], i, part) {
        assert OccursAt(s, i + 1, part);
      }
    }
  }

  /** `s` is the word of small letters in any case. */
  predicate AnyCase(s: string, word: string) {
    |s| == |word| && forall i :: 0 <= i < |s| ==> s[i] == word[i] || s[i] as int + 32 == word[i] as int
  }

  /** Looking for a word of small letters in `.lower()` finds it in any case. */
  lemma LowerContainsIff(s: string, word: string)
    requires forall i :: 0 <= i < |word| ==> 'a' <= word[i] <= 'z'
    ensures Contains(Lower(s), word) <==> exists i, j :: 0 <= i <= j <= |s| && AnyCase(s[i..j], word)
  {
    ContainsIff(Lower(s), word);
    forall i | 0 <= i <= |s| - |word| ensures OccursAt(Lower(s), i, word) <==> AnyCase(s[i..i + |word|], word) {
      LowerAt(s, i, word);
    }
    if i, j :| 0 <= i <= j <= |s| && AnyCase(s[i..j], word) {
      assert OccursAt(Lower(s), i, word);
    }
  }

  lemma LowerAt(s: string, i: nat, word: string)
    requires i <= |s| - |word| && forall k :: 0 <= k < |word| ==> 'a' <= word[k] <= 'z'
    ensures OccursAt(Lower(s), i, word) <==> AnyCase(s[i..i + |word|], word)
  {
    var part := Lower(s)[i..i + |word|];
    assert forall k :: 0 <= k < |word| ==> part[k] == Lower(s)[i + k];
    assert part == word <==> forall k :: 0 <= k < |word| ==> part[k] == word[k];
  }

  /** The first colon at or after `i`, or the end. */
  function FindColon(s: string, i: nat): (r: nat)
    requires i <= |s|
    ensures i <= r <= |s| && (r < |s| ==> s[r] == ':') && forall j :: i <= j < r ==> s[j] != ':'
    decreases |s| - i
  {
    if i < |s| && s[i] != ':' then FindColon(s, i + 1) else i
  }
}
