/** The pieces of Rust's `str` API that the core relies on, over `seq<char>`:
    `trim`, `trim_end`, `starts_with`, `lines`, `split`, `join` and `replace`. */
module Text {

  /** `char::is_whitespace`: the Unicode White_Space property, listed by code point. */
  predicate IsWhitespace(c: char) {
    var n := c as int;
    (0x09 <= n <= 0x0D) || n == 0x20 || n == 0x85 || n == 0xA0 || n == 0x1680
    || (0x2000 <= n <= 0x200A) || n == 0x2028 || n == 0x2029 || n == 0x202F
    || n == 0x205F || n == 0x3000
  }

  /** `str::trim_start`: drops the maximal whitespace prefix (see `TrimStartDrops`). */
  function TrimStart(s: string): (r: string)
    ensures |r| <= |s|
    decreases |s|
  {
    if s != [] && IsWhitespace(s[0]) then TrimStart(s[1..]) else s
  }

  /** `str::trim_end`: drops the maximal whitespace suffix (see `TrimEndDrops`). */
  function TrimEnd(s: string): (r: string)
    ensures |r| <= |s|
    decreases |s|
  {
    if s != [] && IsWhitespace(s[|s| - 1]) then TrimEnd(s[..|s| - 1]) else s
  }

  /** `trim_start` keeps a suffix of its input, drops only whitespace, and
      drops all of the leading whitespace. */
  lemma {:induction false} TrimStartDrops(s: string)
    ensures TrimStart(s) == s[|s| - |TrimStart(s)|..]
    ensures forall i :: 0 <= i < |s| - |TrimStart(s)| ==> IsWhitespace(s[i])
    ensures TrimStart(s) == [] || !IsWhitespace(TrimStart(s)[0])
    decreases |s|
  {
    if s != [] && IsWhitespace(s[0]) {
      TrimStartDrops(s[1..]);
      forall i | 0 < i < |s| - |TrimStart(s)| ensures IsWhitespace(s[i]) {
        assert s[i] == s[1..][i - 1];
      }
    }
  }

  /** `trim_end` keeps a prefix of its input, drops only whitespace, and drops
      all of the trailing whitespace. */
  lemma {:induction false} TrimEndDrops(s: string)
    ensures TrimEnd(s) == s[..|TrimEnd(s)|]
    ensures forall i :: |TrimEnd(s)| <= i < |s| ==> IsWhitespace(s[i])
    ensures TrimEnd(s) == [] || !IsWhitespace(TrimEnd(s)[|TrimEnd(s)| - 1])
    decreases |s|
  {
    if s != [] && IsWhitespace(s[|s| - 1]) {
      TrimEndDrops(s[..|s| - 1]);
    }
  }

  /** `str::trim`. */
  function Trim(s: string): string {
    TrimEnd(TrimStart(s))
  }

  predicate StartsWith(s: string, prefix: string) {
    |prefix| <= |s| && s[..|prefix|] == prefix
  }

  /** Position of the first occurrence of `c`. */
  function IndexOf(s: string, c: char): (i: nat)
    requires c in s
    ensures i < |s| && s[i] == c && c !in s[..i]
  {
    if s[0] == c then 0 else 1 + IndexOf(s[1..], c)
  }

  /** Drops one trailing carriage return. */
  function StripCarriageReturn(line: string): string {
    if line != [] && line[|line| - 1] == '\r' then line[..|line| - 1] else line
  }

  /** `str::lines`: the pieces between line feeds; a piece ended by a line feed
      loses one trailing carriage return, and a final line feed does not start
      another (empty) line. */
  function Lines(s: string): (r: seq<string>)
    ensures forall line :: line in r ==> '\n' !in line
    ensures s == [] <==> r == []
    decreases |s|
  {
    if s == [] then []
    else if '\n' !in s then [s]
    else
      var i := IndexOf(s, '\n');
      [StripCarriageReturn(s[..i])] + Lines(s[i + 1..])
  }

  /** `[String]::join`. */
  function Join(parts: seq<string>, sep: string): string
    decreases |parts|
  {
    if parts == [] then []
    else if |parts| == 1 then parts[0]
    else parts[0] + sep + Join(parts[1..], sep)
  }

  /** `str::split` on one character: always at least one piece, and no piece
      contains the separator. */
  function Split(s: string, c: char): (r: seq<string>)
    ensures |r| >= 1
    ensures forall piece :: piece in r ==> c !in piece
    decreases |s|
  {
    if c !in s then [s]
    else
      var i := IndexOf(s, c);
      [s[..i]] + Split(s[i + 1..], c)
  }

  /** `str::replace`: every non-overlapping occurrence of `pattern`, scanning
      left to right, is replaced by `replacement`. */
  function ReplaceAll(s: string, pattern: string, replacement: string): string
    requires pattern != []
    decreases |s|
  {
    if |s| < |pattern| then s
    else if s[..|pattern|] == pattern then replacement + ReplaceAll(s[|pattern|..], pattern, replacement)
    else [s[0]] + ReplaceAll(s[1..], pattern, replacement)
  }

  lemma JoinCons(head: string, rest: seq<string>, sep: string)
    requires rest != []
    ensures Join([head] + rest, sep) == head + sep + Join(rest, sep)
  {
    assert ([head] + rest)[1..] == rest;
  }

  /** Joining the pieces of a split with the separator gives back the text. */
  lemma {:induction false} JoinSplit(s: string, c: char)
    ensures Join(Split(s, c), [c]) == s
    decreases |s|
  {
    if c in s {
      var i := IndexOf(s, c);
      var head, tail := s[..i], s[i + 1..];
      var rest := Split(tail, c);
      JoinSplit(tail, c);
      assert Join(rest, [c]) == tail;
      assert Split(s, c) == [head] + rest;
      JoinCons(head, rest, [c]);
      assert s == head + [c] + tail;
    } else {
      assert Split(s, c) == [s];
    }
  }

  /** Every character of a piece of a split occurs in the split text. */
  lemma {:induction false} SplitKeepsCharacters(s: string, c: char)
    ensures forall piece, x :: piece in Split(s, c) && x in piece ==> x in s
    decreases |s|
  {
    if c in s {
      var i := IndexOf(s, c);
      var tail := s[i + 1..];
      SplitKeepsCharacters(tail, c);
      assert Split(s, c) == [s[..i]] + Split(tail, c);
      forall piece, x | piece in Split(s, c) && x in piece ensures x in s {
        if piece == s[..i] {
          var k :| 0 <= k < |piece| && piece[k] == x;
          assert s[k] == x;
        } else {
          assert piece in Split(tail, c);
          var k :| 0 <= k < |tail| && tail[k] == x;
          assert s[i + 1 + k] == x;
        }
      }
    }
  }

  /** A slice of a text without carriage returns has none either. */
  lemma NoCarriageReturnInSlice(s: string, i: nat, j: nat)
    requires '\r' !in s && i <= j <= |s|
    ensures '\r' !in s[i..j]
  {
    forall k | 0 <= k < j - i ensures s[i..j][k] != '\r' {
      assert s[i..j][k] == s[i + k];
    }
  }

  /** The first line of a text without carriage returns is the text before its
      first line feed, verbatim. */
  lemma FirstLine(s: string)
    requires '\r' !in s && '\n' in s
    ensures var i := IndexOf(s, '\n');
            && Lines(s) == [s[..i]] + Lines(s[i + 1..])
            && '\r' !in s[i + 1..]
            && s == s[..i] + "\n" + s[i + 1..]
  {
    var i := IndexOf(s, '\n');
    NoCarriageReturnInSlice(s, 0, i);
    NoCarriageReturnInSlice(s, i + 1, |s|);
    StripNothing(s[..i]);
    assert s == s[..i] + [s[i]] + s[i + 1..];
  }

  lemma StripNothing(line: string)
    requires '\r' !in line
    ensures StripCarriageReturn(line) == line
  {
    assert line == [] || line[|line| - 1] in line;
  }

  /** Text without carriage returns and without a final line feed is its lines
      joined with line feeds. */
  lemma {:induction false} JoinLines(s: string)
    requires '\r' !in s
    requires s == [] || s[|s| - 1] != '\n'
    ensures Join(Lines(s), "\n") == s
    decreases |s|
  {
    if s != [] && '\n' in s {
      var i := IndexOf(s, '\n');
      FirstLine(s);
      var tail := s[i + 1..];
      assert tail[|tail| - 1] == s[|s| - 1];
      JoinLines(tail);
      JoinCons(s[..i], Lines(tail), "\n");
    }
  }
}
