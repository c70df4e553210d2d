/**
  String primitives of the two runtimes involved: JavaScript's `trim`, `split`,
  `substring`, `startsWith`, `endsWith`, `join` and ASCII `toUpperCase`, and
  Python's `str.strip`, `str.split`, `str.join` and `str.replace`.
  Strings are sequences of Unicode scalar values.
 */
module Text {

  /** The characters JavaScript's `trim` removes and the regular-expression class `\s` matches:
      WhiteSpace (tab, vertical tab, form feed, space, no-break space, byte-order mark and the
      space separators) and LineTerminator (line feed, carriage return, U+2028, U+2029). */
  predicate IsJsSpace(c: char) {
    c == '\t' || c == '\n' || c == '\U{000B}' || c == '\U{000C}' || c == '\r' || c == ' '
    || c == '\U{00A0}' || c == '\U{1680}' || ('\U{2000}' <= c <= '\U{200A}')
    || c == '\U{2028}' || c == '\U{2029}' || c == '\U{202F}' || c == '\U{205F}'
    || c == '\U{3000}' || c == '\U{FEFF}'
  }

  /** The characters the regular-expression `.` does not match (no `s` flag). */
  predicate IsJsLineTerminator(c: char) {
    c == '\n' || c == '\r' || c == '\U{2028}' || c == '\U{2029}'
  }

  /** The characters Python's `str.strip()` removes (those for which `str.isspace` holds). */
  predicate IsPySpace(c: char) {
    ('\t' <= c <= '\r') || ('\U{001C}' <= c <= '\U{001F}') || c == ' '
    || c == '\U{0085}' || c == '\U{00A0}' || c == '\U{1680}' || ('\U{2000}' <= c <= '\U{200A}')
    || c == '\U{2028}' || c == '\U{2029}' || c == '\U{202F}' || c == '\U{205F}' || c == '\U{3000}'
  }

  /** Whose whitespace set a trim uses. */
  datatype Runtime = JavaScript | Python

  predicate IsSpace(rt: Runtime, c: char) {
    match rt
    case JavaScript => IsJsSpace(c)
    case Python => IsPySpace(c)
  }

  predicate IsAsciiDigit(c: char) { '0' <= c <= '9' }

  predicate IsAsciiUpper(c: char) { 'A' <= c <= 'Z' }

  predicate IsAsciiLower(c: char) { 'a' <= c <= 'z' }

  /** `toUpperCase` restricted to ASCII: other characters are left as they are. */
  function ToUpper(c: char): (u: char)
    ensures !IsAsciiLower(u)
    ensures !IsAsciiLower(c) ==> u == c
    ensures IsAsciiLower(c) ==> IsAsciiUpper(u) && u as int - c as int == 'A' as int - 'a' as int
  {
    if IsAsciiLower(c) then (c as int - 'a' as int + 'A' as int) as char else c
  }

  predicate StartsWith(s: string, prefix: string) {
    |prefix| <= |s| && s[..|prefix|] == prefix
  }

  predicate EndsWith(s: string, suffix: string) {
    |suffix| <= |s| && s[|s| - |suffix|..] == suffix
  }

  /** `sub` occurs in `s` at position `i`. */
  predicate OccursAt(s: string, i: int, sub: string) {
    0 <= i && i + |sub| <= |s| && s[i..i + |sub|] == sub
  }

  /** Removes the leading whitespace characters. */
  function TrimStart(s: string, rt: Runtime): (r: string)
    ensures |r| <= |s|
  {
    if s != [] && IsSpace(rt, s[0]) then TrimStart(s[1..], rt) else s
  }

  /** Removes the trailing whitespace characters. */
  function TrimEnd(s: string, rt: Runtime): (r: string)
    ensures |r| <= |s|
  {
    if s != [] && IsSpace(rt, s[|s| - 1]) then TrimEnd(s[..|s| - 1], rt) else s
  }

  /** Where the trimmed text starts inside `s`. */
  function TrimOffset(s: string, rt: Runtime): (a: nat)
    ensures a <= |s|
  {
    |s| - |TrimStart(s, rt)|
  }

  /** Both ends trimmed. */
  function Trim(s: string, rt: Runtime): (r: string)
    ensures |r| <= |s|
  {
    TrimEnd(TrimStart(s, rt), rt)
  }

  function JsTrim(s: string): string { Trim(s, JavaScript) }

  function PyStrip(s: string): string { Trim(s, Python) }

  /** `TrimStart` keeps a suffix: it cuts leading whitespace only, and stops at a
      character that is not whitespace. */
  lemma {:induction false} TrimStartCut(s: string, rt: Runtime)
    ensures TrimStart(s, rt) == s[|s| - |TrimStart(s, rt)|..]
    ensures TrimStart(s, rt) != [] ==> !IsSpace(rt, TrimStart(s, rt)[0])
    ensures forall i :: 0 <= i < |s| - |TrimStart(s, rt)| ==> IsSpace(rt, s[i])
    decreases |s|
  {
    if s != [] && IsSpace(rt, s[0]) {
      TrimStartCut(s[1..], rt);
    }
  }

  /** `TrimEnd` keeps a prefix: it cuts trailing whitespace only, and stops at a
      character that is not whitespace. */
  lemma {:induction false} TrimEndCut(s: string, rt: Runtime)
    ensures TrimEnd(s, rt) == s[..|TrimEnd(s, rt)|]
    ensures TrimEnd(s, rt) != [] ==> !IsSpace(rt, TrimEnd(s, rt)[|TrimEnd(s, rt)| - 1])
    ensures forall i :: |TrimEnd(s, rt)| <= i < |s| ==> IsSpace(rt, s[i])
    decreases |s|
  {
    if s != [] && IsSpace(rt, s[|s| - 1]) {
      TrimEndCut(s[..|s| - 1], rt);
    }
  }

  /** What trimming keeps and what it removes: the result is the contiguous piece of `s`
      starting at `TrimOffset(s, rt)`, it neither starts nor ends with whitespace, and every
      character cut off either end is whitespace. */
  lemma TrimCut(s: string, rt: Runtime)
    ensures var r, a := Trim(s, rt), TrimOffset(s, rt);
      && a + |r| <= |s| && r == s[a..a + |r|]
      && (r != [] ==> !IsSpace(rt, r[0]) && !IsSpace(rt, r[|r| - 1]))
      && (forall i :: 0 <= i < a ==> IsSpace(rt, s[i]))
      && (forall i :: a + |r| <= i < |s| ==> IsSpace(rt, s[i]))
  {
    var t := TrimStart(s, rt);
    TrimStartCut(s, rt);
    TrimEndCut(t, rt);
    var r, a := Trim(s, rt), TrimOffset(s, rt);
    forall i | a + |r| <= i < |s| ensures IsSpace(rt, s[i]) {
      assert s[i] == t[i - a];
    }
  }

  lemma TrimmedChars(s: string, rt: Runtime)
    ensures forall c :: c in Trim(s, rt) ==> c in s
  {
    var r := Trim(s, rt);
    var i := TrimOffset(s, rt);
    TrimCut(s, rt);
    forall c | c in r ensures c in s {
      var k :| 0 <= k < |r| && r[k] == c;
      assert s[i + k] == c;
    }
  }

  /** Trimming a string with no trimmable ends gives it back. */
  lemma {:induction false} TrimUntouched(s: string, rt: Runtime)
    requires s == [] || (!IsSpace(rt, s[0]) && !IsSpace(rt, s[|s| - 1]))
    ensures Trim(s, rt) == s
  {
  }

  /** Trimming is idempotent. */
  lemma TrimIdempotent(s: string, rt: Runtime)
    ensures Trim(Trim(s, rt), rt) == Trim(s, rt)
  {
    TrimCut(s, rt);
    TrimUntouched(Trim(s, rt), rt);
  }

  /** A string of trimmable characters only trims to the empty string. */
  lemma TrimAllSpace(s: string, rt: Runtime)
    requires forall k :: 0 <= k < |s| ==> IsSpace(rt, s[k])
    ensures Trim(s, rt) == ""
  {
    TrimCut(s, rt);
  }

  /** JavaScript `s.split(sep)` and Python `s.split(sep)` for a one-character separator:
      the pieces between separators, so `n` separators give `n + 1` pieces. */
  function Split(s: string, sep: char): (r: seq<string>)
    ensures |r| >= 1
    decreases |s|
  {
    if s == [] then [""]
    else
      var rest := Split(s[1..], sep);
      if s[0] == sep then [""] + rest else [[s[0]] + rest[0]] + rest[1..]
  }

  /** Number of occurrences of `c` in `s`. */
  function Count(s: string, c: char): (n: nat)
    ensures n <= |s|
  {
    if s == [] then 0 else (if s[0] == c then 1 else 0) + Count(s[1..], c)
  }

  lemma {:induction false} CountIn(s: string, c: char)
    ensures Count(s, c) == 0 <==> c !in s
    decreases |s|
  {
    if s != [] {
      CountIn(s[1..], c);
      assert s == [s[0]] + s[1..];
    }
  }

  /** `n` separators give `n + 1` pieces, none of which holds the separator. */
  lemma {:induction false} SplitPieces(s: string, sep: char)
    ensures |Split(s, sep)| == Count(s, sep) + 1
    ensures forall k :: 0 <= k < |Split(s, sep)| ==> sep !in Split(s, sep)[k]
    decreases |s|
  {
    if s != [] {
      SplitPieces(s[1..], sep);
    }
  }

  /** JavaScript `xs.join(sep)` and Python `sep.join(xs)`. */
  function Join(xs: seq<string>, sep: string): string
    decreases |xs|
  {
    if |xs| == 0 then "" else if |xs| == 1 then xs[0] else xs[0] + sep + Join(xs[1..], sep)
  }

  lemma {:induction false} JoinConsChar(c: char, xs: seq<string>, sep: string)
    requires |xs| >= 1
    ensures Join([[c] + xs[0]] + xs[1..], sep) == [c] + Join(xs, sep)
  {
    var ys := [[c] + xs[0]] + xs[1..];
    assert ys[1..] == xs[1..];
  }

  /** A character found in no item and not in the separator is not in the join. */
  lemma {:induction false} JoinFree(xs: seq<string>, sep: string, c: char)
    requires forall k :: 0 <= k < |xs| ==> c !in xs[k]
    requires c !in sep
    ensures c !in Join(xs, sep)
    decreases |xs|
  {
    if |xs| > 1 {
      JoinFree(xs[1..], sep, c);
    }
  }

  /** Joining the pieces of a split with the separator rebuilds the string. */
  lemma {:induction false} JoinSplit(s: string, sep: char)
    ensures Join(Split(s, sep), [sep]) == s
    decreases |s|
  {
    if s != [] {
      var rest := Split(s[1..], sep);
      JoinSplit(s[1..], sep);
      if s[0] == sep {
        assert ([""] + rest)[1..] == rest;
      } else {
        JoinConsChar(s[0], rest, [sep]);
      }
    }
  }

  /** A piece without the separator, followed by the separator, splits off as one piece. */
  lemma {:induction false} SplitPiece(a: string, tail: string, sep: char)
    requires sep !in a
    ensures Split(a + [sep] + tail, sep) == [a] + Split(tail, sep)
    ensures Split(a, sep) == [a]
    decreases |a|
  {
    if a != [] {
      SplitPiece(a[1..], tail, sep);
      assert (a + [sep] + tail)[1..] == a[1..] + [sep] + tail;
      assert [a[0]] + a[1..] == a;
    } else {
      assert [] + [sep] + tail == [sep] + tail;
      assert ([sep] + tail)[1..] == tail;
    }
  }

  /** Splitting a join rebuilds the list when no item contains the separator. */
  lemma {:induction false} SplitJoin(xs: seq<string>, sep: char)
    requires |xs| >= 1
    requires forall k :: 0 <= k < |xs| ==> sep !in xs[k]
    ensures Split(Join(xs, [sep]), sep) == xs
    decreases |xs|
  {
    if |xs| == 1 {
      SplitPiece(xs[0], "", sep);
    } else {
      SplitJoin(xs[1..], sep);
      SplitPiece(xs[0], Join(xs[1..], [sep]), sep);
      assert [xs[0]] + xs[1..] == xs;
    }
  }

  function Clamp(i: int, n: nat): (r: nat)
    ensures r <= n
  {
    if i < 0 then 0 else if i > n then n else i
  }

  /** JavaScript `s.substring(start, end)`: both bounds are clamped to `[0, |s|]` and
      swapped when `start > end`. */
  function JsSubstring(s: string, start: int, end: int): (r: string)
    ensures |r| <= |s|
  {
    var a := Clamp(start, |s|);
    var b := Clamp(end, |s|);
    if a <= b then s[a..b] else s[b..a]
  }

  /** Python `s.replace(pat, rep)`: every non-overlapping occurrence, scanning left to right. */
  function ReplaceAll(s: string, pat: string, rep: string): string
    requires pat != ""
    decreases |s|
  {
    if |s| < |pat| then s
    else if s[..|pat|] == pat then rep + ReplaceAll(s[|pat|..], pat, rep)
    else [s[0]] + ReplaceAll(s[1..], pat, rep)
  }

  /** Text free of the pattern's first character is left as it is; a uniform statement of
      "nothing to replace". */
  lemma {:induction false} ReplaceAllNoStart(s: string, pat: string, rep: string)
    requires pat != ""
    requires pat[0] !in s
    ensures ReplaceAll(s, pat, rep) == s
    decreases |s|
  {
    if |s| >= |pat| {
      assert s[..|pat|][0] == s[0];
      ReplaceAllNoStart(s[1..], pat, rep);
    }
  }

  /** Replacement distributes over a prefix that cannot hold the start of an occurrence. */
  lemma {:induction false} ReplaceAllSkip(a: string, b: string, pat: string, rep: string)
    requires pat != ""
    requires pat[0] !in a
    ensures ReplaceAll(a + b, pat, rep) == a + ReplaceAll(b, pat, rep)
    decreases |a|
  {
    if a != [] {
      var s := a + b;
      assert s[0] == a[0];
      if |s| >= |pat| {
        assert s[..|pat|][0] == a[0];
        assert s[1..] == a[1..] + b;
        ReplaceAllSkip(a[1..], b, pat, rep);
      }
    } else {
      assert a + b == b;
    }
  }

  /** An occurrence at the front is replaced. */
  lemma ReplaceAllFront(pat: string, b: string, rep: string)
    requires pat != ""
    ensures ReplaceAll(pat + b, pat, rep) == rep + ReplaceAll(b, pat, rep)
  {
    var s := pat + b;
    assert s[..|pat|] == pat;
    assert s[|pat|..] == b;
  }

  /** No occurrence at the front when the second characters differ, and none further on when
      the rest is free of the pattern's first character: the text is left as it is. */
  lemma ReplaceAllMissFront(s: string, pat: string, rep: string)
    requires |pat| >= 2 && |s| >= 2
    requires s[1] != pat[1]
    requires pat[0] !in s[1..]
    ensures ReplaceAll(s, pat, rep) == s
  {
    if |s| >= |pat| {
      assert s[..|pat|][1] == s[1];
      ReplaceAllNoStart(s[1..], pat, rep);
      assert [s[0]] + s[1..] == s;
    }
  }
}
