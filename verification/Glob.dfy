/**
 * Python's `fnmatch.fnmatch` with case-sensitive names (as on POSIX systems), and the shape of
 * pattern for which the store tests a prefix instead.
 */
module Glob {
  /** Whether `c` is one of the characters and ranges listed in a bracket expression. */
  predicate Listed(stuff: string, c: char) {
    if stuff == "" then false
    else if |stuff| >= 3 && stuff[1] == '-' then stuff[0] <= c <= stuff[2] || Listed(stuff[3..], c)
    else stuff[0] == c || Listed(stuff[1..], c)
  }

  /** The bracket expression `[stuff]`; a leading `!` negates it. */
  predicate InBrackets(stuff: string, c: char) {
    if stuff != "" && stuff[0] == '!' then !Listed(stuff[1..], c) else Listed(stuff, c)
  }

  function FindClose(p: string, j: nat): (r: nat)
    ensures j <= |p| ==> j <= r <= |p|
    ensures r < |p| ==> p[r] == ']'
    decreases |p| - j
  {
    if j < |p| && p[j] != ']' then FindClose(p, j + 1) else j
  }

  /** Position of the bracket that closes the one at 0; a `]` right at the start is literal. */
  function Closing(p: string): (r: nat)
    requires p != "" && p[0] == '['
    ensures 1 <= r
  {
    var j := if |p| > 1 && p[1] == '!' then 2 else 1;
    FindClose(p, if j < |p| && p[j] == ']' then j + 1 else j)
  }

  predicate Match(name: string, p: string)
    decreases |p|, |name|
  {
    if p == "" then name == ""
    else if p[0] == '*' then
      Match(name, p[1..]) || (name != "" && Match(name[1..], p))
    else if name == "" then false
    else if p[0] == '?' then Match(name[1..], p[1..])
    else if p[0] == '[' && Closing(p) < |p| then
      InBrackets(p[1..Closing(p)], name[0]) && Match(name[1..], p[Closing(p) + 1..])
    else p[0] == name[0] && Match(name[1..], p[1..])
  }

  /** Patterns the fast path accepts: one `*`, at the end, and no other special character. */
  predicate IsPrefixPattern(p: string) {
    p != "" && p[|p| - 1] == '*' && '*' !in p[..|p| - 1] && '?' !in p && '[' !in p
  }

  lemma {:induction false} StarMatchesAll(name: string)
    ensures Match(name, "*")
  {
    if name != "" {
      StarMatchesAll(name[1..]);
    } else {
      assert Match("", "*"[1..]);
    }
  }

  /** On those patterns the general matcher is the prefix test. */
  lemma {:induction false} PrefixPatternMatches(name: string, p: string)
    requires IsPrefixPattern(p)
    ensures Match(name, p) <==> p[..|p| - 1] <= name
    decreases |p|
  {
    if |p| == 1 {
      assert p == "*";
      StarMatchesAll(name);
    } else {
      assert p[0] == p[..|p| - 1][0];
      assert p[1..][..|p| - 2] == p[..|p| - 1][1..];
      if name != "" {
        PrefixPatternMatches(name[1..], p[1..]);
        var pre := p[..|p| - 1];
        assert pre <= name <==> pre[0] == name[0] && pre[1..] <= name[1..] by {
          assert pre == [pre[0]] + pre[1..];
          assert name == [name[0]] + name[1..];
        }
      }
    }
  }

  /** A pattern without `*`, `?` and `]` matches itself only; a `[` that nothing closes is literal. */
  lemma {:induction false} ExactPattern(name: string, p: string)
    requires '*' !in p && '?' !in p && ']' !in p
    ensures Match(name, p) <==> name == p
    decreases |p|
  {
    if p != "" {
      assert p[0] in p && forall c :: c in p[1..] ==> c in p;
      if name != "" {
        ExactPattern(name[1..], p[1..]);
        assert name == [name[0]] + name[1..] && p == [p[0]] + p[1..];
      }
    }
  }

  // ---------------------------------------------------------------- what a pattern means

  /** The characters from `low` to `high`; a single character is a range of its own. */
  datatype Range = Range(low: char, high: char)

  datatype Piece = Literal(c: char) | AnyOne | AnyRun | OneOf(ranges: seq<Range>, negated: bool)

  predicate Within(c: char, ranges: seq<Range>) {
    exists i :: 0 <= i < |ranges| && ranges[i].low <= c <= ranges[i].high
  }

  /** What one piece of a pattern stands for. */
  predicate Stands(part: string, piece: Piece) {
    match piece
    case Literal(c) => part == [c]
    case AnyOne => |part| == 1
    case AnyRun => true
    case OneOf(ranges, negated) => |part| == 1 && Within(part[0], ranges) != negated
  }

  /** `name` can be cut into parts that the pieces stand for, one after the other. */
  ghost predicate Fits(name: string, pieces: seq<Piece>) {
    if pieces == [] then name == ""
    else exists k :: 0 <= k <= |name| && Stands(name[..k], pieces[0]) && Fits(name[k..], pieces[1..])
  }

  function WriteRange(r: Range): string {
    if r.low == r.high then [r.low] else [r.low, '-', r.high]
  }

  function WriteRanges(ranges: seq<Range>): string {
    if ranges == [] then "" else WriteRange(ranges[0]) + WriteRanges(ranges[1..])
  }

  function WritePiece(piece: Piece): string {
    match piece
    case Literal(c) => [c]
    case AnyOne => "?"
    case AnyRun => "*"
    case OneOf(ranges, negated) => "[" + (if negated then "!" else "") + WriteRanges(ranges) + "]"
  }

  function WritePieces(pieces: seq<Piece>): string {
    if pieces == [] then "" else WritePiece(pieces[0]) + WritePieces(pieces[1..])
  }

  /** The piece can be written: a `]` or a leading `-` stand first among the ranges, a `!` does not. */
  predicate Writable(piece: Piece) {
    match piece
    case Literal(c) => c != '*' && c != '?' && c != '['
    case OneOf(ranges, negated) =>
      var stuff := WriteRanges(ranges);
      stuff != "" && ']' !in stuff[1..] && (negated || stuff[0] != '!')
      && forall i :: 0 < i < |ranges| ==> ranges[i].low != '-'
    case _ => true
  }

  lemma WithinSplit(c: char, first: Range, rest: seq<Range>)
    ensures Within(c, [first] + rest) <==> first.low <= c <= first.high || Within(c, rest)
  {
    var ranges := [first] + rest;
    assert ranges[0] == first;
    if i :| 0 <= i < |rest| && rest[i].low <= c <= rest[i].high {
      assert ranges[i + 1] == rest[i];
    }
  }

  lemma ListedFirst(first: Range, more: string, c: char)
    requires more != "" ==> more[0] != '-'
    ensures Listed(WriteRange(first) + more, c) <==> first.low <= c <= first.high || Listed(more, c)
  {
    var stuff := WriteRange(first) + more;
    if first.low == first.high {
      assert stuff[1..] == more;
      assert |stuff| >= 2 ==> stuff[1] == more[0];
    } else {
      assert stuff[3..] == more;
    }
  }

  lemma {:induction false} ListedIsWithin(ranges: seq<Range>, c: char)
    requires forall i :: 0 < i < |ranges| ==> ranges[i].low != '-'
    ensures Listed(WriteRanges(ranges), c) <==> Within(c, ranges)
    decreases |ranges|
  {
    hide Listed, Within;
    if ranges == [] {
      NothingWithin(c);
    } else {
      var rest := ranges[1..];
      ListedIsWithin(rest, c);
      assert ranges == [ranges[0]] + rest;
      WithinSplit(c, ranges[0], rest);
      assert rest != [] ==> WriteRanges(rest)[0] == ranges[1].low;
      ListedFirst(ranges[0], WriteRanges(rest), c);
    }
  }

  lemma NothingWithin(c: char)
    ensures !Listed("", c) && !Within(c, [])
  {
  }

  lemma {:induction false} FindCloseAt(p: string, j: nat, k: nat)
    requires j <= k < |p| && p[k] == ']' && ']' !in p[j..k]
    ensures FindClose(p, j) == k
    decreases k - j
  {
    if j < k {
      assert p[j] in p[j..k] && p[j + 1..k] == p[j..k][1..];
      FindCloseAt(p, j + 1, k);
    }
  }

  /** Where the bracket at the front of `mark + stuff` is closed; `mark` is `!` or nothing. */
  lemma ClosingAt(mark: string, stuff: string, more: string)
    requires mark == "" || mark == "!"
    requires stuff != "" && ']' !in stuff[1..] && (mark == "" ==> stuff[0] != '!')
    ensures var p := "[" + mark + stuff + "]" + more;
            Closing(p) == 1 + |mark| + |stuff| && p[1..Closing(p)] == mark + stuff && p[Closing(p) + 1..] == more
  {
    hide FindClose;
    var p, j, k := "[" + mark + stuff + "]" + more, 1 + |mark|, 1 + |mark| + |stuff|;
    assert p[j..k] == stuff && p[k] == ']' && p[1..k] == mark + stuff && p[k + 1..] == more;
    assert p[j + 1..k] == stuff[1..] && p[j] == stuff[0];
    assert mark == "!" ==> p[1] == '!';
    FindCloseAt(p, j + 1, k);
    if p[j] != ']' {
      assert ']' !in stuff;
      FindCloseAt(p, j, k);
    }
  }

  /** A bracket expression at the front of a pattern. */
  lemma BracketReads(piece: Piece, more: string)
    requires piece.OneOf? && Writable(piece)
    ensures var p := WritePiece(piece) + more;
            && p[0] == '[' && Closing(p) < |p| && p[Closing(p) + 1..] == more
            && forall c :: InBrackets(p[1..Closing(p)], c) <==> Within(c, piece.ranges) != piece.negated
  {
    hide Closing, Listed, Within, WriteRanges;
    var stuff, mark := WriteRanges(piece.ranges), if piece.negated then "!" else "";
    assert WritePiece(piece) + more == "[" + mark + stuff + "]" + more;
    ClosingAt(mark, stuff, more);
    forall c ensures InBrackets(mark + stuff, c) <==> Within(c, piece.ranges) != piece.negated {
      ListedIsWithin(piece.ranges, c);
      assert if piece.negated then (mark + stuff)[1..] == stuff && (mark + stuff)[0] == '!' else mark + stuff == stuff;
    }
  }

  /** A run of any length in front. */
  lemma {:induction false} RunFits(name: string, pieces: seq<Piece>)
    requires pieces != [] && pieces[0].AnyRun?
    ensures Fits(name, pieces) <==> Fits(name, pieces[1..]) || (name != "" && Fits(name[1..], pieces))
  {
    assert name[0..] == name;
    if k :| 0 < k <= |name| && Fits(name[k..], pieces[1..]) {
      assert name[1..][k - 1..] == name[k..] && Stands(name[1..][..k - 1], pieces[0]);
    }
    if Fits(name, pieces[1..]) {
      assert Stands(name[..0], pieces[0]);
    }
    if name != "" && Fits(name[1..], pieces) {
      var k :| 0 <= k <= |name[1..]| && Stands(name[1..][..k], pieces[0]) && Fits(name[1..][k..], pieces[1..]);
      assert name[1..][k..] == name[k + 1..] && Stands(name[..k + 1], pieces[0]);
    }
  }

  /** One character in front. */
  lemma OneFits(name: string, pieces: seq<Piece>)
    requires pieces != [] && !pieces[0].AnyRun?
    ensures Fits(name, pieces) <==> name != "" && Stands(name[..1], pieces[0]) && Fits(name[1..], pieces[1..])
  {
  }

  /** The matcher accepts exactly the names that a pattern, piece by piece, stands for. */
  lemma {:induction false} MatchIsFits(name: string, pieces: seq<Piece>)
    requires forall i :: 0 <= i < |pieces| ==> Writable(pieces[i])
    ensures Match(name, WritePieces(pieces)) <==> Fits(name, pieces)
    decreases |pieces|, |name|
  {
    hide Fits, Closing, InBrackets, Writable, WriteRanges;
    if pieces == [] {
      NothingFits(name);
    } else {
      var first, more := pieces[0], WritePieces(pieces[1..]);
      var p := WritePieces(pieces);
      if first.AnyRun? {
        assert p[1..] == more;
        RunFits(name, pieces);
        MatchIsFits(name, pieces[1..]);
        if name != "" {
          MatchIsFits(name[1..], pieces);
        }
      } else {
        OneFits(name, pieces);
        if name != "" {
          MatchIsFits(name[1..], pieces[1..]);
        }
        PieceMatches(name, first, more);
      }
    }
  }

  lemma NothingFits(name: string)
    ensures Fits(name, []) <==> name == ""
  {
  }

  lemma PieceMatches(name: string, piece: Piece, more: string)
    requires !piece.AnyRun? && Writable(piece)
    ensures Match(name, WritePiece(piece) + more) <==>
              name != "" && Stands(name[..1], piece) && Match(name[1..], more)
  {
    var p := WritePiece(piece) + more;
    if piece.OneOf? {
      BracketReads(piece, more);
      hide Closing, InBrackets, Within, Writable, WriteRanges;
      assert name != "" ==> name[..1][0] == name[0];
    } else {
      assert p[1..] == more;
    }
  }
}
