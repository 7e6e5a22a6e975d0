/**
 * The UTF-8 codec of the line editor (cli/linenoise/utf8.c) on machine words: code points are 32-bit
 * words, bytes are 8-bit words, and a string reads as NUL behind its end. The encoding is that of
 * section 3 of RFC 3629, extended to 21 bits.
 */
module LineUtf8 {
  const MAX_CODE: bv32 := 0x1f_ffff

  function Lead(tag: bv32, bits: bv32): bv8 {
    ((tag | bits) & 0xff) as bv8
  }

  function Follow(bits: bv32): bv8 {
    ((0x80 | bits) & 0xff) as bv8
  }

  /** `utf8_fromunicode`. */
  function Encode(uc: bv32): (b: seq<bv8>)
    ensures 1 <= |b| <= 4
  {
    if uc <= 0x7f then [Lead(0, uc)]
    else if uc <= 0x7ff then [Lead(0xc0, (uc & 0x7c0) >> 6), Follow(uc & 0x3f)]
    else if uc <= 0xffff then [Lead(0xe0, (uc & 0xf000) >> 12), Follow((uc & 0xfc0) >> 6), Follow(uc & 0x3f)]
    else
      [Lead(0xf0, (uc & 0x1c_0000) >> 18), Follow((uc & 0x3_f000) >> 12), Follow((uc & 0xfc0) >> 6), Follow(uc & 0x3f)]
  }

  /** The byte at a position of a NUL-terminated string. */
  function ByteAt(s: seq<bv8>, i: nat): bv8 {
    if i < |s| then s[i] else 0
  }

  predicate IsFollow(b: bv8) {
    b & 0xc0 == 0x80
  }

  function Low(b: bv8): bv32 {
    (b & 0x7f) as bv32
  }

  function Two(a: bv8, b: bv8): bv32 {
    (((a & 0x3f) as bv32) << 6) | Low(b)
  }

  function Three(a: bv8, b: bv8, c: bv8): bv32 {
    (((a & 0x1f) as bv32) << 12) | (Low(b) << 6) | Low(c)
  }

  function Four(a: bv8, b: bv8, c: bv8, d: bv8): bv32 {
    (((a & 0x0f) as bv32) << 18) | (Low(b) << 12) | (Low(c) << 6) | Low(d)
  }

  /** `utf8_tounicode` at position `i`: the code and the bytes it takes; a stray byte stands for itself. */
  function Decode(s: seq<bv8>, i: nat): (r: (bv32, nat))
    ensures 1 <= r.1 <= 4
  {
    var a, b, c, d := ByteAt(s, i), ByteAt(s, i + 1), ByteAt(s, i + 2), ByteAt(s, i + 3);
    if 0xc0 <= a < 0xe0 && IsFollow(b) && Two(a, b) >= 0x80 then (Two(a, b), 2)
    else if 0xe0 <= a < 0xf0 && IsFollow(b) && IsFollow(c) && Three(a, b, c) >= 0x800 then (Three(a, b, c), 3)
    else if 0xf0 <= a < 0xf8 && IsFollow(b) && IsFollow(c) && IsFollow(d) && Four(a, b, c, d) >= 0x1_0000 then
      (Four(a, b, c, d), 4)
    else (a as bv32, 1)
  }

  lemma OneBits(uc: bv32)
    requires uc <= 0x7f
    ensures Lead(0, uc) < 0x80 && Lead(0, uc) as bv32 == uc
  {
  }

  lemma TwoBits(uc: bv32)
    requires 0x7f < uc <= 0x7ff
    ensures var a, b := Lead(0xc0, (uc & 0x7c0) >> 6), Follow(uc & 0x3f);
            0xc0 <= a < 0xe0 && IsFollow(b) && Two(a, b) == uc
  {
  }

  lemma ThreeBits(uc: bv32)
    requires 0x7ff < uc <= 0xffff
    ensures var a, b, c := Lead(0xe0, (uc & 0xf000) >> 12), Follow((uc & 0xfc0) >> 6), Follow(uc & 0x3f);
            0xe0 <= a < 0xf0 && IsFollow(b) && IsFollow(c) && Three(a, b, c) == uc
  {
  }

  lemma FourBits(uc: bv32)
    ensures var a, b, c, d := Lead(0xf0, (uc & 0x1c_0000) >> 18), Follow((uc & 0x3_f000) >> 12),
                              Follow((uc & 0xfc0) >> 6), Follow(uc & 0x3f);
            0xf0 <= a < 0xf8 && IsFollow(b) && IsFollow(c) && IsFollow(d) && Four(a, b, c, d) == uc & MAX_CODE
  {
  }

  // ---------------------------------------------------------------- one character

  /** Bytes `b` stand in `s` at position `i`. */
  ghost predicate Stands(s: seq<bv8>, i: nat, b: seq<bv8>) {
    i + |b| <= |s| && forall j :: 0 <= j < |b| ==> s[i + j] == b[j]
  }

  lemma RoundTripShort(s: seq<bv8>, i: nat, uc: bv32)
    requires uc <= 0x7ff && Stands(s, i, Encode(uc))
    ensures Decode(s, i) == (uc, |Encode(uc)|)
  {
    hide Lead, Follow, IsFollow, Two, Three, Four;
    var b := Encode(uc);
    assert s[i + 0] == b[0] && (|b| > 1 ==> s[i + 1] == b[1]);
    if uc <= 0x7f {
      OneBits(uc);
    } else {
      TwoBits(uc);
    }
  }

  lemma RoundTripThree(s: seq<bv8>, i: nat, uc: bv32)
    requires 0x7ff < uc <= 0xffff && Stands(s, i, Encode(uc))
    ensures Decode(s, i) == (uc, |Encode(uc)|)
  {
    hide Lead, Follow, IsFollow, Two, Three, Four;
    var b := Encode(uc);
    assert s[i + 0] == b[0] && s[i + 1] == b[1] && s[i + 2] == b[2];
    ThreeBits(uc);
  }

  lemma RoundTripFour(s: seq<bv8>, i: nat, uc: bv32)
    requires 0xffff < uc <= MAX_CODE && Stands(s, i, Encode(uc))
    ensures Decode(s, i) == (uc, |Encode(uc)|)
  {
    hide Lead, Follow, IsFollow, Two, Three, Four;
    var b := Encode(uc);
    assert s[i + 0] == b[0] && s[i + 1] == b[1] && s[i + 2] == b[2] && s[i + 3] == b[3];
    FourBits(uc);
    Masked(uc);
  }

  lemma Masked(uc: bv32)
    requires uc <= MAX_CODE
    ensures uc & MAX_CODE == uc
  {
  }

  lemma TwoOnly(a: bv8, b: bv8)
    requires 0xc0 <= a < 0xe0 && IsFollow(b) && Two(a, b) >= 0x80
    ensures Two(a, b) <= 0x7ff
    ensures Lead(0xc0, (Two(a, b) & 0x7c0) >> 6) == a && Follow(Two(a, b) & 0x3f) == b
  {
  }

  lemma ThreeOnly(a: bv8, b: bv8, c: bv8)
    requires 0xe0 <= a < 0xf0 && IsFollow(b) && IsFollow(c) && Three(a, b, c) >= 0x800
    ensures var n := Three(a, b, c);
            n <= 0xffff && Lead(0xe0, (n & 0xf000) >> 12) == a && Follow((n & 0xfc0) >> 6) == b && Follow(n & 0x3f) == c
  {
  }

  lemma FourOnly(a: bv8, b: bv8, c: bv8, d: bv8)
    requires 0xf0 <= a < 0xf8 && IsFollow(b) && IsFollow(c) && IsFollow(d)
    ensures var n := Four(a, b, c, d);
            n <= MAX_CODE && Lead(0xf0, (n & 0x1c_0000) >> 18) == a && Follow((n & 0x3_f000) >> 12) == b
            && Follow((n & 0xfc0) >> 6) == c && Follow(n & 0x3f) == d
  {
  }

  lemma NotBehind(s: seq<bv8>, i: nat)
    ensures IsFollow(ByteAt(s, i)) ==> i < |s|
  {
  }

  /** The code is longer than a byte, and its encoding of `n` bytes stands at `i`. */
  ghost predicate EncodedAt(s: seq<bv8>, i: nat, code: bv32, n: nat) {
    0x7f < code <= MAX_CODE && |Encode(code)| == n && Stands(s, i, Encode(code))
  }

  lemma TwoEncode(n: bv32)
    requires 0x7f < n <= 0x7ff
    ensures n <= MAX_CODE && Encode(n) == [Lead(0xc0, (n & 0x7c0) >> 6), Follow(n & 0x3f)]
  {
    hide Lead, Follow;
  }

  lemma ThreeEncode(n: bv32)
    requires 0x7ff < n <= 0xffff
    ensures n <= MAX_CODE && n > 0x7f
    ensures Encode(n) == [Lead(0xe0, (n & 0xf000) >> 12), Follow((n & 0xfc0) >> 6), Follow(n & 0x3f)]
  {
    hide Lead, Follow;
  }

  lemma FourEncode(n: bv32)
    requires n >= 0x1_0000
    ensures 0x7f < n
    ensures Encode(n) == [Lead(0xf0, (n & 0x1c_0000) >> 18), Follow((n & 0x3_f000) >> 12), Follow((n & 0xfc0) >> 6),
                          Follow(n & 0x3f)]
  {
    hide Lead, Follow;
  }

  lemma FourBytes(a: bv8, b: bv8, c: bv8, d: bv8)
    requires 0xf0 <= a < 0xf8 && IsFollow(b) && IsFollow(c) && IsFollow(d) && Four(a, b, c, d) >= 0x1_0000
    ensures Encode(Four(a, b, c, d)) == [a, b, c, d]
  {
    hide Lead, Follow, IsFollow, Four, Encode;
    FourOnly(a, b, c, d);
    FourEncode(Four(a, b, c, d));
  }

  lemma FourBound(a: bv8, b: bv8, c: bv8, d: bv8)
    requires 0xf0 <= a < 0xf8 && IsFollow(b) && IsFollow(c) && IsFollow(d) && Four(a, b, c, d) >= 0x1_0000
    ensures 0x7f < Four(a, b, c, d) <= MAX_CODE
  {
  }

  /** Bytes in a row; one that follows another is no NUL, so it is not behind the end. */
  lemma FourStand(s: seq<bv8>, i: nat, n: nat)
    requires 2 <= n <= 4 && IsFollow(ByteAt(s, i + n - 1))
    ensures i + n <= |s|
    ensures n == 2 ==> Stands(s, i, [ByteAt(s, i), ByteAt(s, i + 1)])
    ensures n == 3 ==> Stands(s, i, [ByteAt(s, i), ByteAt(s, i + 1), ByteAt(s, i + 2)])
    ensures n == 4 ==> Stands(s, i, [ByteAt(s, i), ByteAt(s, i + 1), ByteAt(s, i + 2), ByteAt(s, i + 3)])
  {
    NotBehind(s, i + n - 1);
    hide IsFollow;
  }

  lemma EncodedTwo(s: seq<bv8>, i: nat, a: bv8, b: bv8)
    requires a == ByteAt(s, i) && b == ByteAt(s, i + 1)
    requires 0xc0 <= a < 0xe0 && IsFollow(b) && Two(a, b) >= 0x80
    ensures EncodedAt(s, i, Two(a, b), 2)
  {
    hide Lead, Follow, IsFollow, Two, Encode, Stands, ByteAt;
    TwoOnly(a, b);
    TwoEncode(Two(a, b));
    FourStand(s, i, 2);
  }

  lemma EncodedThree(s: seq<bv8>, i: nat, a: bv8, b: bv8, c: bv8)
    requires a == ByteAt(s, i) && b == ByteAt(s, i + 1) && c == ByteAt(s, i + 2)
    requires 0xe0 <= a < 0xf0 && IsFollow(b) && IsFollow(c) && Three(a, b, c) >= 0x800
    ensures EncodedAt(s, i, Three(a, b, c), 3)
  {
    hide Lead, Follow, IsFollow, Three, Encode, Stands, ByteAt;
    ThreeOnly(a, b, c);
    ThreeEncode(Three(a, b, c));
    FourStand(s, i, 3);
  }

  lemma EncodedFour(s: seq<bv8>, i: nat, a: bv8, b: bv8, c: bv8, d: bv8)
    requires a == ByteAt(s, i) && b == ByteAt(s, i + 1) && c == ByteAt(s, i + 2) && d == ByteAt(s, i + 3)
    requires 0xf0 <= a < 0xf8 && IsFollow(b) && IsFollow(c) && IsFollow(d) && Four(a, b, c, d) >= 0x1_0000
    ensures EncodedAt(s, i, Four(a, b, c, d), 4)
  {
    hide IsFollow, Four, Encode, Stands, ByteAt;
    FourBound(a, b, c, d);
    FourBytes(a, b, c, d);
    FourStand(s, i, 4);
  }

  /**
   * What takes more than one byte is an encoding, the shortest one, of the code it is decoded to; any other
   * byte stands for itself.
   */
  lemma DecodesOnlyEncodings(s: seq<bv8>, i: nat)
    ensures var (code, n) := Decode(s, i);
            if n == 1 then code == ByteAt(s, i) as bv32 else EncodedAt(s, i, code, n)
  {
    hide IsFollow, Two, Three, Four, EncodedAt, ByteAt, Encode, Stands;
    var a, b, c, d := ByteAt(s, i), ByteAt(s, i + 1), ByteAt(s, i + 2), ByteAt(s, i + 3);
    if 0xc0 <= a < 0xe0 && IsFollow(b) && Two(a, b) >= 0x80 {
      EncodedTwo(s, i, a, b);
    } else if 0xe0 <= a < 0xf0 && IsFollow(b) && IsFollow(c) && Three(a, b, c) >= 0x800 {
      EncodedThree(s, i, a, b, c);
    } else if 0xf0 <= a < 0xf8 && IsFollow(b) && IsFollow(c) && IsFollow(d) && Four(a, b, c, d) >= 0x1_0000 {
      EncodedFour(s, i, a, b, c, d);
    }
  }

  /** Decoding the encoding of a code point of at most 21 bits, whatever follows, gives it back. */
  lemma RoundTrip(s: seq<bv8>, i: nat, uc: bv32)
    requires uc <= MAX_CODE && Stands(s, i, Encode(uc))
    ensures Decode(s, i) == (uc, |Encode(uc)|)
  {
    hide Encode, Decode, Stands;
    if uc <= 0x7ff {
      RoundTripShort(s, i, uc);
    } else if uc <= 0xffff {
      RoundTripThree(s, i, uc);
    } else {
      RoundTripFour(s, i, uc);
    }
  }

  /** Larger code points are cut to 21 bits, so the round trip holds for exactly those of 21 bits. */
  lemma RoundTripIff(uc: bv32, rest: seq<bv8>)
    ensures Decode(Encode(uc) + rest, 0) == (uc, |Encode(uc)|) <==> uc <= MAX_CODE
  {
    if uc <= MAX_CODE {
      RoundTrip(Encode(uc) + rest, 0, uc);
    } else {
      DecodedIsSmall(Encode(uc) + rest, 0);
    }
  }

  lemma DecodedIsSmall(s: seq<bv8>, i: nat)
    ensures Decode(s, i).0 <= MAX_CODE
  {
    var a, b, c, d := ByteAt(s, i), ByteAt(s, i + 1), ByteAt(s, i + 2), ByteAt(s, i + 3);
    SmallParts(a, b, c, d);
    hide IsFollow, Two, Three, Four;
  }

  lemma SmallParts(a: bv8, b: bv8, c: bv8, d: bv8)
    ensures Two(a, b) <= MAX_CODE && Three(a, b, c) <= MAX_CODE && (0xf0 <= a < 0xf8 ==> Four(a, b, c, d) <= MAX_CODE)
    ensures a as bv32 <= MAX_CODE
  {
  }

  /** `utf8_charlen` of a first byte. */
  function CharLen(c: bv8): int {
    if c & 0x80 == 0 then 1
    else if c & 0xe0 == 0xc0 then 2
    else if c & 0xf0 == 0xe0 then 3
    else if c & 0xf8 == 0xf0 then 4
    else -1
  }

  /** The first byte of an encoding tells its length. */
  lemma FirstByteTellsLength(uc: bv32)
    ensures CharLen(Encode(uc)[0]) == |Encode(uc)|
  {
  }

  /** Decoding never goes beyond the end of the string: the NUL there continues nothing. */
  lemma StaysInside(s: seq<bv8>, i: nat)
    requires i < |s|
    ensures i + Decode(s, i).1 <= |s|
  {
    assert !IsFollow(0);
  }

  // ---------------------------------------------------------------- strings

  ghost predicate Small(codes: seq<bv32>) {
    forall k :: 0 <= k < |codes| ==> codes[k] <= MAX_CODE
  }

  ghost predicate NonZero(codes: seq<bv32>) {
    forall k :: 0 <= k < |codes| ==> codes[k] != 0
  }

  function EncodeAll(codes: seq<bv32>): seq<bv8> {
    if codes == [] then [] else Encode(codes[0]) + EncodeAll(codes[1..])
  }

  /** The codes decoded one after the other from `bytes` bytes at position `i`. */
  function DecodeAll(s: seq<bv8>, i: nat, bytes: int): seq<bv32>
    decreases bytes
  {
    if bytes <= 0 then [] else [Decode(s, i).0] + DecodeAll(s, i + Decode(s, i).1, bytes - Decode(s, i).1)
  }

  /** The position reached after `n` characters from position `i`. */
  function Skip(s: seq<bv8>, i: nat, n: nat): nat
    decreases n
  {
    if n == 0 then i else Skip(s, i + Decode(s, i).1, n - 1)
  }

  lemma FirstStands(s: seq<bv8>, i: nat, codes: seq<bv32>)
    requires codes != [] && Stands(s, i, EncodeAll(codes))
    ensures Stands(s, i, Encode(codes[0])) && Stands(s, i + |Encode(codes[0])|, EncodeAll(codes[1..]))
  {
    hide Encode;
    var first, all := Encode(codes[0]), EncodeAll(codes);
    forall j | 0 <= j < |first| ensures s[i + j] == first[j] {
      assert s[i + j] == all[j];
    }
    forall j | 0 <= j < |EncodeAll(codes[1..])| ensures s[i + |first| + j] == EncodeAll(codes[1..])[j] {
      assert s[i + (|first| + j)] == all[|first| + j];
    }
  }

  /** Wherever the encoding of a list of codes stands, decoding as many bytes gives the list back. */
  lemma {:induction false} DecodeEncodeAll(s: seq<bv8>, i: nat, codes: seq<bv32>)
    requires Small(codes) && Stands(s, i, EncodeAll(codes))
    ensures DecodeAll(s, i, |EncodeAll(codes)|) == codes
    decreases |codes|
  {
    hide Encode, Decode, Stands;
    if codes != [] {
      FirstStands(s, i, codes);
      RoundTrip(s, i, codes[0]);
      DecodeEncodeAll(s, i + |Encode(codes[0])|, codes[1..]);
    }
  }

  /** After `n` characters the position is the total length of the first `n` encodings. */
  lemma {:induction false} SkipEncodings(s: seq<bv8>, i: nat, codes: seq<bv32>, n: nat)
    requires Small(codes) && Stands(s, i, EncodeAll(codes)) && n <= |codes|
    ensures Skip(s, i, n) == i + |EncodeAll(codes[..n])|
    decreases n
  {
    hide Encode, Decode, Stands;
    if n > 0 {
      FirstStands(s, i, codes);
      RoundTrip(s, i, codes[0]);
      SkipEncodings(s, i + |Encode(codes[0])|, codes[1..], n - 1);
      assert codes[..n][0] == codes[0] && codes[..n][1..] == codes[1..][..n - 1];
    }
  }

  /** C's `strlen`. */
  function CLength(s: seq<bv8>): (n: nat)
    ensures n <= |s|
  {
    if s == [] || s[0] == 0 then 0 else 1 + CLength(s[1..])
  }

  lemma NoZeroByte(uc: bv32)
    requires uc != 0
    ensures forall j :: 0 <= j < |Encode(uc)| ==> Encode(uc)[j] != 0
  {
  }

  lemma {:induction false} CLengthOf(b: seq<bv8>, rest: seq<bv8>)
    requires forall j :: 0 <= j < |b| ==> b[j] != 0
    ensures CLength(b + rest) == |b| + CLength(rest)
  {
    if b == [] {
      assert b + rest == rest;
    } else {
      assert (b + rest)[1..] == b[1..] + rest;
      CLengthOf(b[1..], rest);
    }
  }

  lemma {:induction false} NoZeroBytes(codes: seq<bv32>)
    requires NonZero(codes)
    ensures forall j :: 0 <= j < |EncodeAll(codes)| ==> EncodeAll(codes)[j] != 0
  {
    hide Encode;
    if codes != [] {
      NoZeroByte(codes[0]);
      NoZeroBytes(codes[1..]);
    }
  }

  // ---------------------------------------------------------------- the functions as written

  /** `utf8_fromunicode` stores through a pointer. */
  method FromUnicode(p: array<bv8>, i: nat, uc: bv32) returns (n: nat)
    requires i + |Encode(uc)| <= p.Length
    modifies p
    ensures n == |Encode(uc)| && Stands(p[..], i, Encode(uc))
    ensures forall j :: 0 <= j < p.Length && !(i <= j < i + n) ==> p[j] == old(p[j])
  {
    if uc <= 0x7f {
      p[i] := Lead(0, uc);
      return 1;
    } else if uc <= 0x7ff {
      p[i] := Lead(0xc0, (uc & 0x7c0) >> 6);
      p[i + 1] := Follow(uc & 0x3f);
      return 2;
    } else if uc <= 0xffff {
      p[i] := Lead(0xe0, (uc & 0xf000) >> 12);
      p[i + 1] := Follow((uc & 0xfc0) >> 6);
      p[i + 2] := Follow(uc & 0x3f);
      return 3;
    } else {
      p[i] := Lead(0xf0, (uc & 0x1c_0000) >> 18);
      p[i + 1] := Follow((uc & 0x3_f000) >> 12);
      p[i + 2] := Follow((uc & 0xfc0) >> 6);
      p[i + 3] := Follow(uc & 0x3f);
      return 4;
    }
  }

  /** `utf8_strlen`; a negative byte length means up to the NUL. */
  method StrLen(s: seq<bv8>, byteLen: int) returns (charLen: nat)
    ensures charLen == |DecodeAll(s, 0, if byteLen < 0 then CLength(s) else byteLen)|
  {
    hide Decode;
    var left := if byteLen < 0 then CLength(s) else byteLen;
    var i := 0;
    charLen := 0;
    ghost var all := DecodeAll(s, 0, left);
    while left > 0
      invariant charLen + |DecodeAll(s, i, left)| == |all|
      decreases left
    {
      var (c, l) := Decode(s, i);
      charLen := charLen + 1;
      i := i + l;
      left := left - l;
    }
  }

  /** `utf8_index`. */
  method Index(s: seq<bv8>, index: nat) returns (at: nat)
    ensures at == Skip(s, 0, index)
  {
    hide Decode;
    at := 0;
    for k := 0 to index
      invariant Skip(s, at, index - k) == Skip(s, 0, index)
    {
      var (c, l) := Decode(s, at);
      at := at + l;
    }
  }

  /** What the two loops return on an encoded string. */
  lemma LengthAndIndex(codes: seq<bv32>, rest: seq<bv8>, n: nat)
    requires Small(codes) && n <= |codes|
    ensures var s := EncodeAll(codes) + rest;
            && |DecodeAll(s, 0, |EncodeAll(codes)|)| == |codes|
            && Skip(s, 0, n) == |EncodeAll(codes[..n])|
            && (NonZero(codes) && (rest == [] || rest[0] == 0) ==>
                  CLength(s) == |EncodeAll(codes)|)
  {
    hide Encode, Decode, CLength;
    var s := EncodeAll(codes) + rest;
    DecodeEncodeAll(s, 0, codes);
    SkipEncodings(s, 0, codes, n);
    if NonZero(codes) && (rest == [] || rest[0] == 0) {
      NoZeroBytes(codes);
      CLengthOf(EncodeAll(codes), rest);
      NulEnds(rest);
    }
  }

  lemma NulEnds(rest: seq<bv8>)
    requires rest == [] || rest[0] == 0
    ensures CLength(rest) == 0
  {
  }
}
