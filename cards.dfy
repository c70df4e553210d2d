/**
  The result cards shared by the page and the three tabs: the results object the
  server sends back, which cards are expanded, the card that opens by itself when
  results arrive, and the title each tab prints on a card.
 */
module Cards {
  import opened Text

  /** A results object (JavaScript `Record<string, string>`, Python `dict[str, str]`) as its
      entries in enumeration order. */
  type Results = seq<(string, string)>

  function Keys(r: Results): (ks: seq<string>)
    ensures |ks| == |r|
    ensures forall i :: 0 <= i < |r| ==> ks[i] == r[i].0
  {
    seq(|r|, i requires 0 <= i < |r| => r[i].0)
  }

  /** The `openCards` state: a card is expanded when its key maps to `true`. */
  type OpenCards = map<string, bool>

  /** `prev[key]` read as a condition: a key never toggled reads `undefined`, which is false. */
  predicate IsOpen(open: OpenCards, key: string) {
    key in open && open[key]
  }

  /** `toggleCard`: `{...prev, [key]: !prev[key]}`. The toggled card flips (a card never
      toggled opens), every other entry stays exactly as it was. */
  function ToggleCard(open: OpenCards, key: string): (r: OpenCards)
    ensures IsOpen(r, key) <==> !IsOpen(open, key)
    ensures r.Keys == open.Keys + {key}
    ensures forall k :: k in open && k != key ==> r[k] == open[k]
  {
    open[key := !IsOpen(open, key)]
  }

  /** Toggling twice gives back the state, except that a card never toggled before is now
      recorded as closed. */
  lemma ToggleTwice(open: OpenCards, key: string)
    ensures key in open ==> ToggleCard(ToggleCard(open, key), key) == open
    ensures key !in open ==> ToggleCard(ToggleCard(open, key), key) == open[key := false]
  {
  }

  /** Toggling two different cards gives the same state in either order. */
  lemma ToggleCommutes(open: OpenCards, a: string, b: string)
    requires a != b
    ensures ToggleCard(ToggleCard(open, a), b) == ToggleCard(ToggleCard(open, b), a)
  {
  }

  /** What the page does with `openCards` after results arrive: when the first key of the
      results is a non-empty string, that card alone is expanded; otherwise (no results, or a
      first key `""`, which is falsy) the expanded cards stay as they were. */
  function OpenFirstCard(open: OpenCards, results: Results): (r: OpenCards)
    ensures |results| > 0 && results[0].0 != "" ==>
      forall k :: IsOpen(r, k) <==> k == results[0].0
    ensures (|results| == 0 || results[0].0 == "") ==> r == open
  {
    if |results| > 0 && results[0].0 != "" then map[results[0].0 := true] else open
  }

  /** An expanded card is always one the results hold or one that was expanded before. */
  lemma OpenFirstCardFromResults(open: OpenCards, results: Results, k: string)
    requires IsOpen(OpenFirstCard(open, results), k)
    ensures k in Keys(results) || IsOpen(open, k)
  {
  }

  // ---- Card titles ----

  /** The comment tab's title: `key.charAt(0).toUpperCase() + key.slice(1)` (ASCII case
      mapping). The first character is upper-cased and the rest is left alone. */
  function CapitalizeFirst(key: string): (t: string)
    ensures |t| == |key|
    ensures forall i :: 0 < i < |key| ==> t[i] == key[i]
    ensures key != [] ==> !IsAsciiLower(t[0]) && (IsAsciiLower(key[0]) || t[0] == key[0])
  {
    if key == [] then [] else [ToUpper(key[0])] + key[1..]
  }

  lemma CapitalizeFirstIdempotent(key: string)
    ensures CapitalizeFirst(CapitalizeFirst(key)) == CapitalizeFirst(key)
  {
  }

  /** Number of ASCII capitals in `s`. */
  function CountUpper(s: string): (n: nat)
    ensures n <= |s|
  {
    if s == [] then 0 else (if IsAsciiUpper(s[0]) then 1 else 0) + CountUpper(s[1..])
  }

  /** `key.replace(/([A-Z])/g, ' $1')`: a space goes in front of every capital. */
  function SpaceBeforeCapitals(s: string): (r: string)
    ensures |r| == |s| + CountUpper(s)
    ensures r != [] ==> !IsAsciiUpper(r[0])
    ensures s != [] && IsAsciiUpper(s[0]) ==> r[0] == ' '
  {
    if s == [] then []
    else if IsAsciiUpper(s[0]) then [' ', s[0]] + SpaceBeforeCapitals(s[1..])
    else [s[0]] + SpaceBeforeCapitals(s[1..])
  }

  /** Removes each space that stands right before a capital: the reading of a title back
      into its key. */
  function Unspace(s: string): (r: string)
    ensures |r| <= |s|
  {
    if s == [] then []
    else if |s| >= 2 && s[0] == ' ' && IsAsciiUpper(s[1]) then Unspace(s[1..])
    else [s[0]] + Unspace(s[1..])
  }

  /** The spaces are recoverable: removing every space before a capital gives the key back,
      for every key (including keys that already hold spaces). */
  lemma {:induction false} UnspaceSpaceBeforeCapitals(s: string)
    ensures Unspace(SpaceBeforeCapitals(s)) == s
    decreases |s|
  {
    if s != [] {
      var rest := SpaceBeforeCapitals(s[1..]);
      UnspaceSpaceBeforeCapitals(s[1..]);
      if IsAsciiUpper(s[0]) {
        var r := [' ', s[0]] + rest;
        assert r[1..] == [s[0]] + rest;
        assert ([s[0]] + rest)[1..] == rest;
      } else {
        var r := [s[0]] + rest;
        assert r[1..] == rest;
      }
      assert [s[0]] + s[1..] == s;
    }
  }

  /** `.replace(/^./, c => c.toUpperCase())`: the first character is upper-cased unless there
      is none or it is a line terminator, which `.` does not match. */
  function UpperFirstChar(s: string): (r: string)
    ensures |r| == |s|
    ensures forall i :: 0 < i < |s| ==> r[i] == s[i]
    ensures s != [] && IsJsLineTerminator(s[0]) ==> r == s
    ensures s != [] && !IsJsLineTerminator(s[0]) ==> r[0] == ToUpper(s[0])
  {
    if s != [] && !IsJsLineTerminator(s[0]) then [ToUpper(s[0])] + s[1..] else s
  }

  /** The marketing tab's title: a space before each capital, then the first character
      upper-cased. */
  function MarketingTitle(key: string): (t: string)
    ensures |t| == |key| + CountUpper(key)
  {
    UpperFirstChar(SpaceBeforeCapitals(key))
  }

  /** Inserting spaces distributes over concatenation. */
  lemma {:induction false} SpaceBeforeCapitalsAppend(a: string, b: string)
    ensures SpaceBeforeCapitals(a + b) == SpaceBeforeCapitals(a) + SpaceBeforeCapitals(b)
    decreases |a|
  {
    if a == [] {
      assert a + b == b;
    } else {
      assert (a + b)[0] == a[0];
      assert (a + b)[1..] == a[1..] + b;
      SpaceBeforeCapitalsAppend(a[1..], b);
    }
  }

  lemma SpaceBeforeCapital(c: char, b: string)
    requires IsAsciiUpper(c)
    ensures SpaceBeforeCapitals([c] + b) == [' ', c] + SpaceBeforeCapitals(b)
  {
    assert ([c] + b)[1..] == b;
  }

  /** A capital inside otherwise capital-free text gets exactly one space before it. */
  lemma {:induction false} SpaceBeforeOneCapital(a: string, c: char, b: string)
    requires CountUpper(a) == 0 && CountUpper(b) == 0 && IsAsciiUpper(c)
    ensures SpaceBeforeCapitals(a + [c] + b) == a + [' ', c] + b
  {
    calc {
      SpaceBeforeCapitals(a + [c] + b);
      { assert a + [c] + b == a + ([c] + b); }
      SpaceBeforeCapitals(a + ([c] + b));
      { SpaceBeforeCapitalsAppend(a, [c] + b); }
      SpaceBeforeCapitals(a) + SpaceBeforeCapitals([c] + b);
      { NoCapitalsUnchanged(a); SpaceBeforeCapital(c, b); NoCapitalsUnchanged(b); }
      a + ([' ', c] + b);
    }
  }

  /** A camel-case key reads as words: a lower-case word `a` followed by a capitalised word
      `c b` is shown as `A` (first letter upper-cased), a space, then `c b`; so
      `campaignAnalysis` is shown as `Campaign Analysis`. */
  lemma {:induction false} MarketingTitleCamel(a: string, c: char, b: string)
    requires a != [] && !IsJsLineTerminator(a[0])
    requires CountUpper(a) == 0 && CountUpper(b) == 0 && IsAsciiUpper(c)
    ensures MarketingTitle(a + [c] + b) == CapitalizeFirst(a) + [' ', c] + b
  {
    calc {
      MarketingTitle(a + [c] + b);
      { SpaceBeforeOneCapital(a, c, b); }
      UpperFirstChar(a + [' ', c] + b);
      { UpperFirstCharFront(a, [' ', c] + b); assert a + [' ', c] + b == a + ([' ', c] + b); }
      CapitalizeFirst(a) + ([' ', c] + b);
    }
  }

  /** Upper-casing the first character only looks at the first piece. */
  lemma {:induction false} UpperFirstCharFront(x: string, y: string)
    requires x != [] && !IsJsLineTerminator(x[0])
    ensures UpperFirstChar(x + y) == CapitalizeFirst(x) + y
  {
    var s := x + y;
    assert s[0] == x[0];
    assert s[1..] == x[1..] + y;
  }

  /** A key that already holds words (a space, then a capital) gets a second space in front
      of every such capital: `Brand & Creative Quality` is shown with two spaces before
      `Creative` and before `Quality`. */
  lemma {:induction false} MarketingTitleSpacedKey(a: string, c: char, b: string)
    requires IsAsciiUpper(c)
    ensures var t, i := MarketingTitle(a + [' ', c] + b), |a| + CountUpper(a);
      i + 2 < |t| && t[i] == ' ' && t[i + 1] == ' ' && t[i + 2] == c
  {
    var s := SpaceBeforeCapitals(a + [' ', c] + b);
    var i := |a| + CountUpper(a);
    calc {
      s;
      { assert a + [' ', c] + b == a + ([' '] + ([c] + b)); }
      SpaceBeforeCapitals(a + ([' '] + ([c] + b)));
      { SpaceBeforeCapitalsAppend(a, [' '] + ([c] + b)); }
      SpaceBeforeCapitals(a) + SpaceBeforeCapitals([' '] + ([c] + b));
      { SpaceBeforeCapitalsAppend([' '], [c] + b); }
      SpaceBeforeCapitals(a) + (SpaceBeforeCapitals([' ']) + SpaceBeforeCapitals([c] + b));
      { SpaceBeforeCapital(c, b); }
      SpaceBeforeCapitals(a) + ([' '] + ([' ', c] + SpaceBeforeCapitals(b)));
    }
    SpacedAt(SpaceBeforeCapitals(a), c, SpaceBeforeCapitals(b));
  }

  lemma SpacedAt(x: string, c: char, y: string)
    ensures var s := x + ([' '] + ([' ', c] + y));
      s[|x|] == ' ' && s[|x| + 1] == ' ' && s[|x| + 2] == c
  {
  }

  /** A key that starts with a capital gets a leading space, which the first-character rule
      leaves alone. */
  lemma MarketingTitleLeadingCapital(key: string)
    requires key != [] && IsAsciiUpper(key[0])
    ensures MarketingTitle(key) == SpaceBeforeCapitals(key)
    ensures MarketingTitle(key)[0] == ' '
  {
  }

  /** For a key without capitals whose first character is not a line terminator, the
      marketing title and the comment title agree. */
  lemma {:induction false} MarketingTitleNoCapitals(key: string)
    requires CountUpper(key) == 0
    requires key == [] || !IsJsLineTerminator(key[0])
    ensures MarketingTitle(key) == CapitalizeFirst(key)
  {
    NoCapitalsUnchanged(key);
  }

  lemma {:induction false} NoCapitalsUnchanged(s: string)
    requires CountUpper(s) == 0
    ensures SpaceBeforeCapitals(s) == s
    decreases |s|
  {
    if s != [] {
      NoCapitalsUnchanged(s[1..]);
      assert [s[0]] + s[1..] == s;
    }
  }

  // ---- Marketing title, as evidently intended ----

  /** No capital follows a lower-case letter: the key has no camel-case word break. */
  predicate NoCamelBreak(s: string) {
    forall i :: 0 < i < |s| ==> !(IsAsciiLower(s[i - 1]) && IsAsciiUpper(s[i]))
  }

  /** Whether the character before `s` (if any) is a lower-case letter, after reading `s`. */
  function AfterLower(s: string, before: bool): bool {
    if s == [] then before else IsAsciiLower(s[|s| - 1])
  }

  /** A space before each capital that follows a lower-case letter, and nowhere else;
      `afterLower` tells whether the character before `s` is a lower-case letter. */
  function SpaceCamel(s: string, afterLower: bool): (r: string)
    ensures |s| <= |r|
  {
    if s == [] then [] else CamelPiece(s[0], afterLower) + SpaceCamel(s[1..], IsAsciiLower(s[0]))
  }

  function CamelPiece(c: char, afterLower: bool): string {
    if afterLower && IsAsciiUpper(c) then [' ', c] else [c]
  }

  /** The marketing card title with spaces inserted at camel-case word breaks only. */
  function ReadableTitle(key: string): (t: string)
    ensures |key| <= |t|
  {
    UpperFirstChar(SpaceCamel(key, false))
  }

  lemma {:induction false} SpaceCamelAppend(x: string, y: string, before: bool)
    ensures SpaceCamel(x + y, before) == SpaceCamel(x, before) + SpaceCamel(y, AfterLower(x, before))
    decreases |x|
  {
    if x == [] {
      assert x + y == y;
    } else {
      var l := IsAsciiLower(x[0]);
      calc {
        SpaceCamel(x + y, before);
        { assert (x + y)[0] == x[0]; assert (x + y)[1..] == x[1..] + y; }
        CamelPiece(x[0], before) + SpaceCamel(x[1..] + y, l);
        { SpaceCamelAppend(x[1..], y, l); }
        CamelPiece(x[0], before) + (SpaceCamel(x[1..], l) + SpaceCamel(y, AfterLower(x[1..], l)));
        { assert AfterLower(x[1..], l) == AfterLower(x, before); }
        SpaceCamel(x, before) + SpaceCamel(y, AfterLower(x, before));
      }
    }
  }

  lemma {:induction false} SpaceCamelNoBreak(s: string, before: bool)
    requires NoCamelBreak(s)
    requires before ==> s == [] || !IsAsciiUpper(s[0])
    ensures SpaceCamel(s, before) == s
    decreases |s|
  {
    if s != [] {
      assert NoCamelBreak(s[1..]) by {
        forall i | 0 < i < |s[1..]| ensures !(IsAsciiLower(s[1..][i - 1]) && IsAsciiUpper(s[1..][i])) {
          assert s[1..][i - 1] == s[i] && s[1..][i] == s[i + 1];
        }
      }
      if |s| > 1 {
        assert IsAsciiLower(s[0]) ==> !IsAsciiUpper(s[1..][0]) by {
          assert s[1..][0] == s[1];
        }
      }
      SpaceCamelNoBreak(s[1..], IsAsciiLower(s[0]));
      assert [s[0]] + s[1..] == s;
    }
  }

  /** A key that is already written as words (no capital right after a lower-case letter)
      is shown as it is, apart from its first character being upper-cased; so
      `Brand & Creative Quality` and `Regulatory & Claims Compliance (U.S.)` keep their
      single spaces and their `U.S.`. */
  lemma {:induction false} ReadableTitleKeepsWords(key: string)
    requires NoCamelBreak(key)
    ensures ReadableTitle(key) == UpperFirstChar(key)
  {
    SpaceCamelNoBreak(key, false);
  }

  /** The camel-case keys the title rule was written for still read as words:
      `campaignAnalysis` is shown as `Campaign Analysis`. */
  lemma {:induction false} ReadableTitleCamel(a: string, c: char, b: string)
    requires a != [] && !IsJsLineTerminator(a[0]) && IsAsciiLower(a[|a| - 1])
    requires NoCamelBreak(a) && NoCamelBreak(b) && IsAsciiUpper(c)
    ensures ReadableTitle(a + [c] + b) == CapitalizeFirst(a) + [' ', c] + b
  {
    calc {
      SpaceCamel(a + [c] + b, false);
      { assert a + [c] + b == a + ([c] + b); SpaceCamelAppend(a, [c] + b, false); }
      SpaceCamel(a, false) + SpaceCamel([c] + b, true);
      { SpaceCamelNoBreak(a, false); assert ([c] + b)[1..] == b; }
      a + ([' ', c] + SpaceCamel(b, false));
      { SpaceCamelNoBreak(b, false); }
      a + ([' ', c] + b);
    }
    UpperFirstCharFront(a, [' ', c] + b);
    assert a + [' ', c] + b == a + ([' ', c] + b);
  }
}
