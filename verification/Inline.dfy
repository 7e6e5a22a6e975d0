/**
 * The inline-command tokenizer of the server parser (testcore/protocol.py): `str.strip` and the
 * splitting of a line into words and double-quoted arguments.
 */
module Inline {
  import opened Text

  /** `str.isspace` on one character. */
  predicate IsBlank(c: char) {
    var n := c as int;
    9 <= n <= 13 || 28 <= n <= 32 || n == 0x85 || n == 0xA0 || n == 0x1680 || 0x2000 <= n <= 0x200A
    || n == 0x2028 || n == 0x2029 || n == 0x202F || n == 0x205F || n == 0x3000
  }

  predicate IsSeparator(c: char) {
    c == ' ' || c == '\t'
  }

  function DropLeft(s: string): (r: string)
    ensures r != "" ==> !IsBlank(r[0])
    ensures r == "" <==> forall i :: 0 <= i < |s| ==> IsBlank(s[i])
  {
    if s != "" && IsBlank(s[0]) then DropLeft(s[1..]) else s
  }

  function DropRight(s: string): (r: string)
    ensures |r| <= |s| && r == s[..|r|]
    ensures r == "" <==> forall i :: 0 <= i < |s| ==> IsBlank(s[i])
  {
    if s != "" && IsBlank(s[|s| - 1]) then DropRight(s[..|s| - 1]) else s
  }

  /** `s.strip()`. */
  function Strip(s: string): (r: string)
    ensures r != "" ==> !IsBlank(r[0])
    ensures r == "" <==> forall i :: 0 <= i < |s| ==> IsBlank(s[i])
  {
    DropRight(DropLeft(s))
  }

  /** First position from `i` on that is not a space or tab. */
  function SkipSeparators(s: string, i: nat): (k: nat)
    requires i <= |s|
    ensures i <= k <= |s| && (k < |s| ==> !IsSeparator(s[k]))
    ensures forall j :: i <= j < k ==> IsSeparator(s[j])
    decreases |s| - i
  {
    if i < |s| && IsSeparator(s[i]) then SkipSeparators(s, i + 1) else i
  }

  /** First position from `i` on that is a double quote. */
  function FindQuote(s: string, i: nat): (k: nat)
    requires i <= |s|
    ensures i <= k <= |s| && (k < |s| ==> s[k] == '"')
    ensures forall j :: i <= j < k ==> s[j] != '"'
    decreases |s| - i
  {
    if i < |s| && s[i] != '"' then FindQuote(s, i + 1) else i
  }

  /** First position from `i` on that is a space or tab. */
  function FindSeparator(s: string, i: nat): (k: nat)
    requires i <= |s|
    ensures i <= k <= |s| && (k < |s| ==> IsSeparator(s[k]))
    ensures i < |s| && !IsSeparator(s[i]) ==> i < k
    ensures forall j :: i <= j < k ==> !IsSeparator(s[j])
    decreases |s| - i
  {
    if i < |s| && !IsSeparator(s[i]) then FindSeparator(s, i + 1) else i
  }

  /** The argument that starts at `k` and the position after it. */
  function Token(s: string, k: nat): (t: (string, nat))
    requires k < |s| && !IsSeparator(s[k])
    ensures k < t.1 <= |s|
  {
    if s[k] == '"' then
      var q := FindQuote(s, k + 1);
      (s[k + 1..q], if q < |s| then q + 1 else q)
    else
      var w := FindSeparator(s, k);
      (s[k..w], w)
  }

  /** The arguments of the line from position `i` on. */
  function TokensFrom(s: string, i: nat): seq<string>
    requires i <= |s|
    decreases |s| - i
  {
    var k := SkipSeparators(s, i);
    if k == |s| then []
    else [Token(s, k).0] + TokensFrom(s, Token(s, k).1)
  }

  /** One quoted or unquoted argument: the inner loops of `_parse_inline_command`. */
  method ReadToken(line: string, k: nat) returns (part: string, i: nat)
    requires k < |line| && !IsSeparator(line[k])
    ensures (part, i) == Token(line, k)
  {
    hide FindQuote, FindSeparator;
    i := k;
    var n := |line|;
    if line[i] == '"' {
      i := i + 1;
      var start := i;
      while i < n && line[i] != '"'
        invariant start <= i <= n
        invariant forall j :: start <= j < i ==> line[j] != '"'
      {
        i := i + 1;
      }
      assert i == FindQuote(line, start);
      part := line[start..i];
      if i < n {
        i := i + 1;
      }
    } else {
      var start := i;
      while i < n && !IsSeparator(line[i])
        invariant start <= i <= n
        invariant forall j :: start <= j < i ==> !IsSeparator(line[j])
      {
        i := i + 1;
      }
      assert i == FindSeparator(line, start);
      part := line[start..i];
    }
  }

  /** The splitting loop of `_parse_inline_command`. */
  method Split(line: string) returns (parts: seq<string>)
    ensures parts == TokensFrom(line, 0)
  {
    hide FindQuote, FindSeparator, SkipSeparators, Token;
    parts := [];
    var i := 0;
    var n := |line|;
    while i < n
      invariant 0 <= i <= n
      invariant parts + TokensFrom(line, i) == TokensFrom(line, 0)
    {
      ghost var at := i;
      while i < n && IsSeparator(line[i])
        invariant at <= i <= n
        invariant forall j :: at <= j < i ==> IsSeparator(line[j])
      {
        i := i + 1;
      }
      assert i == SkipSeparators(line, at);
      if i >= n {
        break;
      }
      var part, next := ReadToken(line, i);
      assert parts + ([part] + TokensFrom(line, next)) == (parts + [part]) + TokensFrom(line, next);
      parts, i := parts + [part], next;
    }
  }

  // ---------------------------------------------------------------- line feeds

  predicate HasLineFeed(tokens: seq<string>) {
    exists t :: t in tokens && '\n' in t
  }

  lemma TokenLineFeed(s: string, k: nat)
    requires k < |s| && !IsSeparator(s[k])
    ensures '\n' in s[k..] <==> '\n' in Token(s, k).0 || '\n' in s[Token(s, k).1..]
  {
    hide FindQuote, FindSeparator;
    var (t, next) := Token(s, k);
    var from := if s[k] == '"' then k + 1 else k;
    var to := from + |t|;
    assert s[from..to] == t;
    assert s[k..] == s[k..from] + t + s[to..next] + s[next..];
  }

  /** A line feed is neither separator nor quote: it always ends up inside some argument. */
  lemma {:induction false} TokensCarryLineFeed(s: string, i: nat)
    requires i <= |s|
    ensures '\n' in s[i..] <==> HasLineFeed(TokensFrom(s, i))
    decreases |s| - i
  {
    hide FindQuote, FindSeparator, SkipSeparators, Token;
    var k := SkipSeparators(s, i);
    assert s[i..] == s[i..k] + s[k..];
    assert '\n' !in s[i..k];
    if k < |s| {
      var (t, next) := Token(s, k);
      TokenLineFeed(s, k);
      TokensCarryLineFeed(s, next);
      var rest := TokensFrom(s, next);
      assert forall u :: u in [t] + rest <==> u == t || u in rest;
    }
  }

  /** Stripping keeps a line feed that has a visible character on both sides. */
  lemma StripKeepsLineFeed(a: string, b: string)
    requires Strip(a) != "" && Strip(b) != ""
    ensures '\n' in Strip(a + "\n" + b)
  {
    DropLeftAppend(a, "\n" + b);
    var left := DropLeft(a);
    assert a + "\n" + b == a + ("\n" + b);
    assert left + ("\n" + b) == (left + "\n") + b;
    DropRightAppend(left + "\n", b);
    assert (left + "\n")[|left|] == '\n';
  }

  /** Stripping adds no line feed. */
  lemma {:induction false} StripAddsNoLineFeed(s: string)
    requires '\n' in Strip(s)
    ensures '\n' in s
    decreases |s|
  {
    if s != "" && IsBlank(s[0]) {
      assert Strip(s) == Strip(s[1..]);
      StripAddsNoLineFeed(s[1..]);
    }
  }

  lemma {:induction false} DropLeftAppend(a: string, t: string)
    requires DropLeft(a) != ""
    ensures DropLeft(a + t) == DropLeft(a) + t
  {
    if IsBlank(a[0]) {
      assert (a + t)[1..] == a[1..] + t;
      DropLeftAppend(a[1..], t);
    }
  }

  lemma {:induction false} DropRightAppend(h: string, b: string)
    requires DropRight(b) != ""
    ensures DropRight(h + b) == h + DropRight(b)
  {
    if IsBlank(b[|b| - 1]) {
      assert (h + b)[..|h + b| - 1] == h + b[..|b| - 1];
      DropRightAppend(h, b[..|b| - 1]);
    }
  }

  const WHITESPACE: set<char> := {
    '\t', '\n', '\U{0B}', '\U{0C}', '\r', '\U{1C}', '\U{1D}', '\U{1E}', '\U{1F}', ' ', '\U{85}', '\U{A0}', '\U{1680}',
    '\U{2000}', '\U{2001}', '\U{2002}', '\U{2003}', '\U{2004}', '\U{2005}', '\U{2006}', '\U{2007}', '\U{2008}',
    '\U{2009}', '\U{200A}', '\U{2028}', '\U{2029}', '\U{202F}', '\U{205F}', '\U{3000}'}

  lemma BlankIff(c: char)
    ensures IsBlank(c) <==> c in WHITESPACE
  {
  }

  predicate Blanks(s: string) {
    forall i :: 0 <= i < |s| ==> s[i] in WHITESPACE
  }

  /** Nothing to strip. */
  predicate Visible(s: string) {
    s != "" && s[0] !in WHITESPACE && s[|s| - 1] !in WHITESPACE
  }

  lemma {:induction false} DropLeftBlanks(lead: string, t: string)
    requires Blanks(lead) && (t == "" || t[0] !in WHITESPACE)
    ensures DropLeft(lead + t) == t
  {
    hide IsBlank;
    if lead != "" {
      BlankIff(lead[0]);
      assert (lead + t)[1..] == lead[1..] + t;
      DropLeftBlanks(lead[1..], t);
    } else {
      assert lead + t == t;
      if t != "" {
        BlankIff(t[0]);
      }
    }
  }

  lemma {:induction false} DropRightBlanks(t: string, trail: string)
    requires Blanks(trail) && (t == "" || t[|t| - 1] !in WHITESPACE)
    ensures DropRight(t + trail) == t
  {
    hide IsBlank;
    if trail != "" {
      BlankIff(trail[|trail| - 1]);
      assert (t + trail)[..|t + trail| - 1] == t + trail[..|trail| - 1];
      DropRightBlanks(t, trail[..|trail| - 1]);
    } else {
      assert t + trail == t;
      if t != "" {
        BlankIff(t[|t| - 1]);
      }
    }
  }

  /** Stripping takes away the blanks on both sides and nothing else. */
  lemma StripBlanks(lead: string, core: string, trail: string)
    requires Blanks(lead) && Visible(core) && Blanks(trail)
    ensures Strip(lead + core + trail) == core
  {
    hide IsBlank;
    assert lead + core + trail == lead + (core + trail);
    assert (core + trail)[0] == core[0];
    DropLeftBlanks(lead, core + trail);
    DropRightBlanks(core, trail);
  }

  // ---------------------------------------------------------------- writing arguments

  /**
   * How an argument can be written: in double quotes, bare, or behind a double quote that nothing
   * closes, which then takes the rest of the line.
   */
  datatype Argument = InQuotes(text: string) | Bare(text: string) | Unclosed(text: string)

  predicate Separators(gap: string) {
    forall i :: 0 <= i < |gap| ==> gap[i] == ' ' || gap[i] == '\t'
  }

  predicate Writable(a: Argument) {
    match a
    case InQuotes(text) => '"' !in text
    case Unclosed(text) => '"' !in text
    case Bare(text) =>
      text != "" && text[0] != '"' && ' ' !in text && '\t' !in text
  }

  function Written(a: Argument): string {
    match a
    case InQuotes(text) => "\"" + text + "\""
    case Bare(text) => text
    case Unclosed(text) => "\"" + text
  }

  /** The arguments, each behind its gap, and `tail` behind the last. */
  function Line(args: seq<Argument>, gaps: seq<string>, tail: string): string
    requires |gaps| == |args|
  {
    if args == [] then tail else gaps[0] + Written(args[0]) + Line(args[1..], gaps[1..], tail)
  }

  /** Gaps are separators, there is one behind a bare argument, and an unclosed one comes last. */
  predicate WellWritten(args: seq<Argument>, gaps: seq<string>, tail: string) {
    && |gaps| == |args| && Separators(tail)
    && (forall i :: 0 <= i < |args| ==> Writable(args[i]) && Separators(gaps[i]))
    && (forall i :: 0 <= i < |args| - 1 ==> !args[i].Unclosed? && (args[i].Bare? ==> gaps[i + 1] != ""))
    && (args != [] && args[|args| - 1].Unclosed? ==> tail == "")
  }

  function Texts(args: seq<Argument>): (r: seq<string>)
    ensures |r| == |args| && forall i :: 0 <= i < |r| ==> r[i] == args[i].text
  {
    seq(|args|, i requires 0 <= i < |args| => args[i].text)
  }

  /** The position behind the separators. */
  lemma SkipTo(s: string, i: nat, k: nat)
    requires i <= k <= |s| && Separators(s[i..k]) && (k < |s| ==> !IsSeparator(s[k]))
    ensures SkipSeparators(s, i) == k
  {
    hide SkipSeparators;
    forall j | i <= j < k ensures IsSeparator(s[j]) {
      assert s[j] == s[i..k][j - i];
    }
  }

  /** A quoted or unclosed argument at `k`. */
  lemma QuotedToken(s: string, k: nat, q: nat)
    requires k < q <= |s| && s[k] == '"' && '"' !in s[k + 1..q] && (q < |s| ==> s[q] == '"')
    ensures Token(s, k) == (s[k + 1..q], if q < |s| then q + 1 else q)
  {
    hide FindQuote, FindSeparator;
    forall j | k + 1 <= j < q ensures s[j] != '"' {
      assert s[j] == s[k + 1..q][j - k - 1];
    }
    assert FindQuote(s, k + 1) == q;
  }

  /** A bare argument at `k`. */
  lemma BareToken(s: string, k: nat, w: nat)
    requires k < w <= |s| && Writable(Bare(s[k..w])) && (w < |s| ==> IsSeparator(s[w]))
    ensures !IsSeparator(s[k]) && Token(s, k) == (s[k..w], w)
  {
    hide FindQuote, FindSeparator;
    assert s[k..w][0] == s[k];
    forall j | k <= j < w ensures !IsSeparator(s[j]) {
      assert s[j] == s[k..w][j - k];
    }
    assert FindSeparator(s, k) == w;
  }

  lemma Cut(s: string, i: nat, a: string, b: string, c: string)
    requires i <= |s| && s[i..] == a + b + c
    ensures var k := i + |a|;
            && k + |b| <= |s| && s[i..k] == a && s[k..k + |b|] == b && s[k + |b|..] == c
  {
    var k := i + |a|;
    assert s[i..k] == s[i..][..|a|] == a;
    assert s[k..k + |b|] == s[i..][|a|..|a| + |b|] == b;
    assert s[k + |b|..] == s[i..][|a| + |b|..] == c;
  }

  /** An argument at `k` is read as it was written. */
  lemma WrittenToken(s: string, k: nat, a: Argument)
    requires k + |Written(a)| <= |s| && s[k..k + |Written(a)|] == Written(a) && Writable(a)
    requires a.Bare? && k + |Written(a)| < |s| ==> IsSeparator(s[k + |Written(a)|])
    requires a.Unclosed? ==> k + |Written(a)| == |s|
    ensures k < |s| && !IsSeparator(s[k]) && Token(s, k) == (a.text, k + |Written(a)|)
  {
    hide SkipSeparators, Token, FindQuote, FindSeparator;
    var w := k + |Written(a)|;
    WrittenStart(a);
    assert s[k] == s[k..w][0];
    if a.Bare? {
      BareToken(s, k, w);
    } else {
      var q := k + 1 + |a.text|;
      assert s[k + 1..q] == s[k..w][1..1 + |a.text|] == a.text;
      assert a.InQuotes? ==> s[q] == s[k..w][1 + |a.text|];
      QuotedToken(s, k, q);
    }
  }

  lemma LineEnds(gaps: seq<string>, tail: string)
    requires WellWritten([], gaps, tail)
    ensures Separators(tail) && Texts([]) == []
  {
  }

  lemma RestWellWritten(args: seq<Argument>, gaps: seq<string>, tail: string)
    requires args != [] && WellWritten(args, gaps, tail)
    ensures WellWritten(args[1..], gaps[1..], tail) && Writable(args[0]) && Separators(gaps[0])
    ensures Texts(args) == [args[0].text] + Texts(args[1..])
    ensures var more := Line(args[1..], gaps[1..], tail);
            && (args[0].Bare? && more != "" ==> IsSeparator(more[0]))
            && (args[0].Unclosed? ==> more == "")
  {
    hide Writable;
    assert |args| > 1 ==> gaps[1..][0] == gaps[1];
  }

  /** However the arguments of a line are written, quoted, bare or unclosed, they are split into exactly themselves. */
  lemma {:induction false} SplitWritten(s: string, i: nat, args: seq<Argument>, gaps: seq<string>, tail: string)
    requires i <= |s| && |gaps| == |args| && WellWritten(args, gaps, tail) && s[i..] == Line(args, gaps, tail)
    ensures TokensFrom(s, i) == Texts(args)
    decreases |args|
  {
    hide SkipSeparators, Token, Written, Writable, Separators, WellWritten, Texts;
    if args == [] {
      LineEnds(gaps, tail);
      assert s[i..|s|] == tail;
      SkipTo(s, i, |s|);
    } else {
      var k, w := i + |gaps[0]|, i + |gaps[0]| + |Written(args[0])|;
      Cut(s, i, gaps[0], Written(args[0]), Line(args[1..], gaps[1..], tail));
      RestWellWritten(args, gaps, tail);
      assert w < |s| ==> s[w] == s[w..][0];
      WrittenToken(s, k, args[0]);
      SkipTo(s, i, k);
      SplitWritten(s, w, args[1..], gaps[1..], tail);
    }
  }

  lemma NoTokens(s: string)
    ensures TokensFrom(s, |s|) == []
  {
  }

  /** Every line is written in this way, so this is all the tokenizer does. */
  lemma {:induction false} EveryLineIsWritten(s: string, i: nat)
    returns (args: seq<Argument>, gaps: seq<string>, tail: string)
    requires i <= |s|
    ensures WellWritten(args, gaps, tail) && Line(args, gaps, tail) == s[i..]
    decreases |s| - i
  {
    hide SkipSeparators, Written, Writable;
    var k := SkipSeparators(s, i);
    assert Separators(s[i..k]);
    if k == |s| {
      args, gaps, tail := [], [], s[i..];
    } else {
      var a, w := ArgumentAt(s, k);
      args, gaps, tail := EveryLineIsWritten(s, w);
      FirstGap(args, gaps, tail);
      assert w < |s| ==> s[w] == s[w..][0];
      var gap := s[i..k];
      assert s[i..] == gap + s[k..w] + s[w..];
      PutFirst(a, gap, args, gaps, tail);
      args, gaps := [a] + args, [gap] + gaps;
    }
  }

  /** A line that starts with a separator has a first gap, and an empty one has neither arguments nor tail. */
  lemma FirstGap(args: seq<Argument>, gaps: seq<string>, tail: string)
    requires WellWritten(args, gaps, tail)
    ensures var line := Line(args, gaps, tail);
            && (line == "" ==> args == [] && tail == "")
            && (args != [] && IsSeparator(line[0]) ==> gaps[0] != "")
  {
    hide Writable, Written;
    if args != [] {
      WrittenStart(args[0]);
    }
  }

  lemma WrittenStart(a: Argument)
    requires Writable(a)
    ensures Written(a) != "" && !IsSeparator(Written(a)[0])
  {
  }

  /** The argument at `k` and where it ends. */
  lemma ArgumentAt(s: string, k: nat) returns (a: Argument, w: nat)
    requires k < |s| && !IsSeparator(s[k])
    ensures k < w <= |s| && Writable(a) && Written(a) == s[k..w]
    ensures a.Unclosed? ==> w == |s|
    ensures a.Bare? && w < |s| ==> IsSeparator(s[w])
  {
    if s[k] == '"' {
      var q := FindQuote(s, k + 1);
      if q < |s| {
        a, w := InQuotes(s[k + 1..q]), q + 1;
      } else {
        a, w := Unclosed(s[k + 1..q]), q;
      }
    } else {
      w := FindSeparator(s, k);
      a := Bare(s[k..w]);
    }
  }

  lemma PutFirst(a: Argument, gap: string, args: seq<Argument>, gaps: seq<string>, tail: string)
    requires WellWritten(args, gaps, tail) && Writable(a) && Separators(gap)
    requires a.Unclosed? ==> args == [] && tail == ""
    requires a.Bare? && args != [] ==> gaps[0] != ""
    ensures WellWritten([a] + args, [gap] + gaps, tail)
    ensures Line([a] + args, [gap] + gaps, tail) == gap + Written(a) + Line(args, gaps, tail)
  {
    hide Writable, Written;
    assert ([a] + args)[1..] == args && ([gap] + gaps)[1..] == gaps;
  }

  /** A line has no line feed unless an argument has. */
  lemma {:induction false} LineWithoutLineFeed(args: seq<Argument>, gaps: seq<string>, tail: string)
    requires WellWritten(args, gaps, tail) && forall a :: a in args ==> '\n' !in a.text
    ensures '\n' !in Line(args, gaps, tail)
    decreases |args|
  {
    if args != [] {
      assert args[0] in args && forall a :: a in args[1..] ==> a in args;
      assert '\n' !in gaps[0] && '\n' !in Written(args[0]);
      RestWellWritten(args, gaps, tail);
      LineWithoutLineFeed(args[1..], gaps[1..], tail);
    }
  }
}
