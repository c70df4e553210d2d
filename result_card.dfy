/**
  The markdown-subset renderer of the result card: one forward pass over the trimmed
  lines of a section's text, classifying each line by an ordered list of rules and
  collapsing each run of table lines into one table.
 */
module ResultCard {
  import opened Wrappers
  import opened Text

  /** One rendered element, independent of its visual styling. */
  datatype Block =
    | Spacer
    | Heading(level: nat, text: string)
    | BoldLine(text: string)
    | BulletItem(text: string)
    | NumberedItem(index: string, text: string)
    | StatusLine(text: string)
    | Paragraph(html: string)
    | Table(headers: seq<string>, rows: seq<seq<string>>)

  /** An entry of the element list: the table renderer may return `null`, which the
      display layer shows as nothing. */
  type Element = Option<Block>

  const StrongOpen: string := "<strong class=\"font-semibold text-foreground\">"
  const StrongClose: string := "</strong>"
  const Done: char := '\U{2705}'
  const Failed: char := '\U{274C}'

  // ---------------------------------------------------------------------------
  // Line classification

  /** A line goes to the table buffer when it holds at least two `|`. */
  predicate IsTableLine(line: string) {
    Count(line, '|') >= 2
  }

  /** The test as the renderer writes it: the line holds a `|` and splitting on `|`
      yields more than two pieces. */
  lemma TableLineAsWritten(line: string)
    ensures IsTableLine(line) <==> '|' in line && |Split(line, '|')| > 2
  {
    SplitPieces(line, '|');
    CountIn(line, '|');
  }

  /** Length of the leading run of ASCII digits. */
  function DigitRun(s: string): (k: nat)
    ensures k <= |s|
    ensures forall i :: 0 <= i < k ==> IsAsciiDigit(s[i])
    ensures k < |s| ==> !IsAsciiDigit(s[k])
  {
    if s != [] && IsAsciiDigit(s[0]) then 1 + DigitRun(s[1..]) else 0
  }

  /** The pattern `^\d+\.\s`: digits, a dot, one whitespace character. */
  predicate IsNumberedLine(line: string) {
    var k := DigitRun(line);
    1 <= k && k + 1 < |line| && line[k] == '.' && IsJsSpace(line[k + 1])
  }

  /** Where the lazy `(.*?)\*\*` closes when scanning from `j`: the first `**` at or
      after `j` that is reached without crossing a line terminator. */
  function CloseFrom(s: string, j: nat): (r: Option<nat>)
    ensures r.Some? ==> j <= r.value && OccursAt(s, r.value, "**")
    ensures r.Some? ==> forall k :: j <= k < r.value ==> !IsJsLineTerminator(s[k]) && !OccursAt(s, k, "**")
    ensures r.None? ==> forall k :: j <= k <= |s| - 2 ==>
                          !OccursAt(s, k, "**") || exists t :: j <= t < k && IsJsLineTerminator(s[t])
    decreases |s| - j
  {
    if j + 2 > |s| then None
    else if s[j..j + 2] == "**" then Some(j)
    else if IsJsLineTerminator(s[j]) then None
    else CloseFrom(s, j + 1)
  }

  /** `s.replace(/\*\*(.*?)\*\*\/g, StrongOpen + "$1" + StrongClose)`. */
  function BoldRewrite(s: string): string
    decreases |s|
  {
    if |s| < 4 then s
    else if s[..2] == "**" && CloseFrom(s, 2).Some? then
      var j := CloseFrom(s, 2).value;
      StrongOpen + s[2..j] + StrongClose + BoldRewrite(s[j + 2..])
    else [s[0]] + BoldRewrite(s[1..])
  }

  /** The classification of one trimmed line that is not a table line. */
  function ClassifyLine(line: string): Block {
    if line == "" then Spacer
    else if StartsWith(line, "# ") then Heading(1, line[2..])
    else if StartsWith(line, "## ") then Heading(2, line[3..])
    else if StartsWith(line, "### ") then Heading(3, line[4..])
    else if StartsWith(line, "**") && EndsWith(line, "**") then BoldLine(JsSubstring(line, 2, |line| - 2))
    else if StartsWith(line, "- ") then BulletItem(line[2..])
    else if IsNumberedLine(line) then
      var k := DigitRun(line);
      NumberedItem(line[..k], line[k + 2..])
    else if Done in line || Failed in line then StatusLine(line)
    else Paragraph(BoldRewrite(line))
  }

  // ---------------------------------------------------------------------------
  // Tables

  /** A table cell: non-empty, already trimmed, free of `|`. */
  predicate IsCell(c: string) {
    c != "" && JsTrim(c) == c && '|' !in c
  }

  lemma TrimmedPiece(piece: string)
    requires '|' !in piece
    ensures JsTrim(piece) != "" ==> IsCell(JsTrim(piece))
  {
    TrimIdempotent(piece, JavaScript);
    TrimmedChars(piece, JavaScript);
  }

  /** Cells of a table line: split on `|`, trim each piece, drop empty pieces. */
  function CellsOf(pieces: seq<string>): (r: seq<string>)
    requires forall k :: 0 <= k < |pieces| ==> '|' !in pieces[k]
    ensures |r| <= |pieces|
    ensures forall k :: 0 <= k < |r| ==> IsCell(r[k])
  {
    if pieces == [] then []
    else
      var c := JsTrim(pieces[0]);
      TrimmedPiece(pieces[0]);
      var rest := CellsOf(pieces[1..]);
      if c == "" then rest else [c] + rest
  }

  function Cells(line: string): (r: seq<string>)
    ensures forall k :: 0 <= k < |r| ==> IsCell(r[k])
    ensures |r| <= Count(line, '|') + 1
  {
    SplitPieces(line, '|');
    CellsOf(Split(line, '|'))
  }

  /** The table built from a buffer of table lines; `None` below two lines. */
  function RenderTable(tableLines: seq<string>): (r: Element)
    ensures r.None? <==> |tableLines| < 2
    ensures r.Some? ==> r.value.Table? && r.value.headers == Cells(tableLines[0])
    ensures r.Some? ==> |r.value.rows| == |tableLines| - 2
                        && forall k :: 0 <= k < |r.value.rows| ==> r.value.rows[k] == Cells(tableLines[k + 2])
  {
    if |tableLines| < 2 then None
    else
      var rows := seq(|tableLines|, k requires 0 <= k < |tableLines| => Cells(tableLines[k]));
      Some(Table(rows[0], rows[2..]))
  }

  /** The second buffered line is discarded whatever it contains. */
  lemma SeparatorIgnored(header: string, sep1: string, sep2: string, body: seq<string>)
    ensures RenderTable([header, sep1] + body) == RenderTable([header, sep2] + body)
  {
    var a, b := RenderTable([header, sep1] + body), RenderTable([header, sep2] + body);
    assert a.value.rows == b.value.rows;
  }

  // ---------------------------------------------------------------------------
  // The pass over the lines

  /** The lines the renderer walks over: the text trimmed, then split on line feeds. */
  function Lines(text: string): (r: seq<string>)
    ensures |r| >= 1
  {
    Split(JsTrim(text), '\n')
  }

  /** A piece of the line list: a run of buffered table lines, or one other line. */
  datatype Segment = Run(rows: seq<string>) | Single(line: string)

  /** The element each segment renders to. */
  function SegmentElement(seg: Segment): (r: Element)
    ensures seg.Single? ==> r == Some(ClassifyLine(seg.line))
    ensures seg.Run? ==> (r.None? <==> |seg.rows| < 2)
  {
    match seg
    case Run(rows) => RenderTable(rows)
    case Single(line) => Some(ClassifyLine(line))
  }

  function MapElements(segs: seq<Segment>): (r: seq<Element>)
    ensures |r| == |segs|
    decreases |segs|
  {
    if segs == [] then [] else [SegmentElement(segs[0])] + MapElements(segs[1..])
  }

  lemma {:induction false} MapElementsAppend(a: seq<Segment>, b: seq<Segment>)
    ensures MapElements(a + b) == MapElements(a) + MapElements(b)
    decreases |a|
  {
    if a == [] {
      assert a + b == b;
    } else {
      assert (a + b)[1..] == a[1..] + b;
      MapElementsAppend(a[1..], b);
    }
  }

  /** Element `k` is the rendering of segment `k`. */
  lemma {:induction false} MapElementsAt(segs: seq<Segment>, k: nat)
    requires k < |segs|
    ensures MapElements(segs)[k] == SegmentElement(segs[k])
    decreases k
  {
    if k > 0 {
      MapElementsAt(segs[1..], k - 1);
    }
  }

  /** Closing the buffer: a run segment if any table line is pending. */
  function Close(pending: seq<string>): seq<Segment> {
    if pending == [] then [] else [Run(pending)]
  }

  /** Every line of the pass trimmed, as the loop trims each line before looking at it. */
  function TrimAll(lines: seq<string>): (r: seq<string>)
    ensures |r| == |lines|
    ensures forall k :: 0 <= k < |r| ==> r[k] == JsTrim(lines[k])
  {
    seq(|lines|, k requires 0 <= k < |lines| => JsTrim(lines[k]))
  }

  /** What the pass holds between two lines: the segments closed so far and the buffered
      table lines. */
  datatype PassState = PassState(emitted: seq<Segment>, pending: seq<string>)

  /** One trimmed line of the pass: a table line grows the buffer; any other line first
      closes the buffer and then stands as a segment of its own. */
  function Step(st: PassState, line: string): PassState {
    if IsTableLine(line) then PassState(st.emitted, st.pending + [line])
    else PassState(st.emitted + Close(st.pending) + [Single(line)], [])
  }

  /** The state after the first `n` trimmed lines. */
  function RunPass(lines: seq<string>, n: nat): PassState
    requires n <= |lines|
  {
    if n == 0 then PassState([], []) else Step(RunPass(lines, n - 1), lines[n - 1])
  }

  lemma RunPassStep(lines: seq<string>, i: nat)
    requires i < |lines|
    ensures RunPass(lines, i + 1) == Step(RunPass(lines, i), lines[i])
  {
  }

  function Finish(st: PassState): seq<Segment> {
    st.emitted + Close(st.pending)
  }

  /** The element list for a section's text: the pass over the trimmed lines, the final
      close, each segment rendered. */
  function Render(text: string): seq<Element> {
    var lines := TrimAll(Lines(text));
    MapElements(Finish(RunPass(lines, |lines|)))
  }

  /** `renderContent`: the pass over the section's lines, each one trimmed. */
  method RenderContent(text: string) returns (elements: seq<Element>)
    ensures elements == Render(text)
  {
    elements := RenderLines(TrimAll(Lines(text)));
  }

  /** The loop of `renderContent` with its table buffer and in-table flag, over lines
      already trimmed. */
  method RenderLines(lines: seq<string>) returns (elements: seq<Element>)
    ensures elements == MapElements(Finish(RunPass(lines, |lines|)))
  {
    ghost var st := PassState([], []);
    elements := [];
    var currentTable: seq<string> := [];
    var inTable := false;
    var i := 0;
    while i < |lines|
      invariant 0 <= i <= |lines|
      invariant st == RunPass(lines, i)
      invariant inTable <==> currentTable != []
      invariant currentTable == st.pending
      invariant elements == MapElements(st.emitted)
    {
      var line := lines[i];
      RunPassStep(lines, i);
      elements, currentTable, inTable := ProcessLine(elements, currentTable, inTable, line, st);
      st := Step(st, line);
      i := i + 1;
    }
    MapElementsAppend(st.emitted, Close(st.pending));
    if inTable && |currentTable| > 0 {
      elements := elements + [RenderTable(currentTable)];
    }
  }

  /** The body of the loop for one trimmed line. */
  method ProcessLine(elements: seq<Element>, currentTable: seq<string>, inTable: bool, line: string,
                     ghost st: PassState)
    returns (elements': seq<Element>, currentTable': seq<string>, inTable': bool)
    requires inTable <==> currentTable != []
    requires currentTable == st.pending && elements == MapElements(st.emitted)
    ensures inTable' <==> currentTable' != []
    ensures currentTable' == Step(st, line).pending
    ensures elements' == MapElements(Step(st, line).emitted)
  {
    elements', currentTable', inTable' := elements, currentTable, inTable;
    if IsTableLine(line) {
      currentTable' := currentTable' + [line];
      inTable' := true;
    } else {
      MapElementsAppend(st.emitted, Close(st.pending));
      MapElementsAppend(st.emitted + Close(st.pending), [Single(line)]);
      if inTable' && |currentTable'| > 0 {
        elements' := elements' + [RenderTable(currentTable')];
        currentTable' := [];
        inTable' := false;
      }
      elements' := elements' + [Some(ClassifyLine(line))];
    }
  }

  // ---------------------------------------------------------------------------
  // An independent reference: the lines cut into maximal runs of table lines

  /** Puts a line in front of a grouping: a table line joins a run that starts the
      grouping, or starts a new one; another line stands alone. */
  function Cons(line: string, segs: seq<Segment>): seq<Segment> {
    if !IsTableLine(line) then [Single(line)] + segs
    else if segs != [] && segs[0].Run? then [Run([line] + segs[0].rows)] + segs[1..]
    else [Run([line])] + segs
  }

  /** The lines cut, front to back, into maximal table runs and single other lines. */
  function Group(lines: seq<string>): seq<Segment>
    decreases |lines|
  {
    if lines == [] then [] else Cons(lines[0], Group(lines[1..]))
  }

  function Flatten(segs: seq<Segment>): seq<string>
    decreases |segs|
  {
    if segs == [] then []
    else (match segs[0] case Run(rows) => rows case Single(line) => [line]) + Flatten(segs[1..])
  }

  /** A well-formed grouping: runs are non-empty and made of table lines, single lines are
      not table lines, and no run directly follows another. */
  predicate WellGrouped(segs: seq<Segment>) {
    && (forall k :: 0 <= k < |segs| && segs[k].Run? ==>
          segs[k].rows != [] && forall j :: 0 <= j < |segs[k].rows| ==> IsTableLine(segs[k].rows[j]))
    && (forall k :: 0 <= k < |segs| && segs[k].Single? ==> !IsTableLine(segs[k].line))
    && (forall k :: 0 < k < |segs| && segs[k].Run? ==> !segs[k - 1].Run?)
  }

  lemma ConsSound(line: string, segs: seq<Segment>)
    requires WellGrouped(segs)
    ensures Flatten(Cons(line, segs)) == [line] + Flatten(segs)
    ensures WellGrouped(Cons(line, segs))
  {
    var r := Cons(line, segs);
    if IsTableLine(line) && segs != [] && segs[0].Run? {
      assert r[1..] == segs[1..];
      assert Flatten(segs) == segs[0].rows + Flatten(segs[1..]);
      if |segs| > 1 {
        assert !segs[1].Run?;
      }
      forall k | 0 < k < |r| && r[k].Run? ensures !r[k - 1].Run? {
        assert r[k] == segs[k];
        if k > 1 {
          assert r[k - 1] == segs[k - 1];
        }
      }
    } else {
      assert r[1..] == segs;
    }
  }

  /** The grouping keeps every line in order, and is well formed. */
  lemma {:induction false} GroupSound(lines: seq<string>)
    ensures Flatten(Group(lines)) == lines
    ensures WellGrouped(Group(lines))
    decreases |lines|
  {
    if lines != [] {
      GroupSound(lines[1..]);
      ConsSound(lines[0], Group(lines[1..]));
      assert [lines[0]] + lines[1..] == lines;
    }
  }

  /** The pass run over a list from a given state, front to back. */
  function RunFrom(st: PassState, lines: seq<string>): PassState
    decreases |lines|
  {
    if lines == [] then st else RunFrom(Step(st, lines[0]), lines[1..])
  }

  lemma {:induction false} RunFromSnoc(st: PassState, lines: seq<string>, line: string)
    ensures RunFrom(st, lines + [line]) == Step(RunFrom(st, lines), line)
    decreases |lines|
  {
    if lines == [] {
      assert [] + [line] == [line];
    } else {
      assert (lines + [line])[1..] == lines[1..] + [line];
      RunFromSnoc(Step(st, lines[0]), lines[1..], line);
    }
  }

  /** The loop's prefix form agrees with the front-to-back form. */
  lemma {:induction false} RunPassFrom(lines: seq<string>, n: nat)
    requires n <= |lines|
    ensures RunPass(lines, n) == RunFrom(PassState([], []), lines[..n])
  {
    if n > 0 {
      RunPassFrom(lines, n - 1);
      assert lines[..n] == lines[..n - 1] + [lines[n - 1]];
      RunFromSnoc(PassState([], []), lines[..n - 1], lines[n - 1]);
    }
  }

  /** The buffered lines `pending` joined to the grouping that follows. */
  function Attach(pending: seq<string>, segs: seq<Segment>): seq<Segment> {
    if pending == [] then segs
    else if segs != [] && segs[0].Run? then [Run(pending + segs[0].rows)] + segs[1..]
    else [Run(pending)] + segs
  }

  lemma AttachTable(pending: seq<string>, line: string, segs: seq<Segment>)
    requires IsTableLine(line)
    ensures Attach(pending + [line], segs) == Attach(pending, Cons(line, segs))
  {
    var c := Cons(line, segs);
    if pending == [] {
      assert pending + [line] == [line];
    } else if segs != [] && segs[0].Run? {
      assert c[1..] == segs[1..];
      assert pending + [line] + segs[0].rows == pending + ([line] + segs[0].rows);
    } else {
      assert c[1..] == segs;
    }
  }

  /** Finishing the pass from any state is attaching its buffer to the grouping of the
      remaining lines. */
  lemma {:induction false} FinishGroup(e: seq<Segment>, pending: seq<string>, lines: seq<string>)
    ensures Finish(RunFrom(PassState(e, pending), lines)) == e + Attach(pending, Group(lines))
    decreases |lines|
  {
    if lines == [] {
    } else if IsTableLine(lines[0]) {
      FinishGroup(e, pending + [lines[0]], lines[1..]);
      AttachTable(pending, lines[0], Group(lines[1..]));
    } else {
      FinishGroup(e + Close(pending) + [Single(lines[0])], [], lines[1..]);
      var rest := Group(lines[1..]);
      if pending == [] {
        assert e + [Single(lines[0])] + rest == e + ([Single(lines[0])] + rest);
      } else {
        assert e + [Run(pending)] + [Single(lines[0])] + rest == e + ([Run(pending)] + ([Single(lines[0])] + rest));
      }
    }
  }

  /** The renderer emits one element per segment of the reference grouping: one table per
      maximal run of table lines, one block per other line, in order. */
  lemma RenderGrouped(text: string)
    ensures Render(text) == MapElements(Group(TrimAll(Lines(text))))
  {
    var lines := TrimAll(Lines(text));
    RunPassFrom(lines, |lines|);
    assert lines[..|lines|] == lines;
    FinishGroup([], [], lines);
    assert Finish(RunFrom(PassState([], []), lines)) == Group(lines);
  }

  // ---------------------------------------------------------------------------
  // What each rule produces

  /** A line differing from `p` at position `k` does not start with `p`. */
  lemma DiffersAt(line: string, p: string, k: nat)
    requires k < |p| && (k >= |line| || line[k] != p[k])
    ensures !StartsWith(line, p)
  {
    if |p| <= |line| {
      assert line[..|p|][k] == line[k];
    }
  }

  /** `# `, `## ` and `### ` open headings of levels 1, 2 and 3; the rest of the line is
      the heading text. */
  lemma HeadingLines(t: string)
    ensures ClassifyLine("# " + t) == Heading(1, t)
    ensures ClassifyLine("## " + t) == Heading(2, t)
    ensures ClassifyLine("### " + t) == Heading(3, t)
  {
    var h1, h2, h3 := "# " + t, "## " + t, "### " + t;
    assert h1[..2] == "# " && h1[2..] == t;
    DiffersAt(h2, "# ", 1);
    assert h2[..3] == "## " && h2[3..] == t;
    DiffersAt(h3, "# ", 1);
    DiffersAt(h3, "## ", 2);
    assert h3[..4] == "### " && h3[4..] == t;
  }

  /** A line wrapped in `**` is a bold line holding what lies between. */
  lemma BoldLines(x: string)
    ensures ClassifyLine("**" + x + "**") == BoldLine(x)
  {
    var line := "**" + x + "**";
    assert line[..2] == "**" && line[|line| - 2..] == "**";
    assert line[..2] != "# " && line[..2] != "- ";
    assert line[2..|line| - 2] == x;
  }

  /** The shortest bold lines overlap their markers; `substring` then swaps its bounds. */
  lemma ShortBoldLines()
    ensures ClassifyLine("**") == BoldLine("**")
    ensures ClassifyLine("***") == BoldLine("*")
  {
    assert "**"[..2] == "**" && "**"[..2] != "# ";
    assert "***"[..2] == "**" && "***"[1..] == "**" && "***"[..2] != "# " && "***"[1..2] == "*";
  }

  /** `- ` opens a bullet item. */
  lemma BulletLines(t: string)
    ensures ClassifyLine("- " + t) == BulletItem(t)
  {
    var line := "- " + t;
    assert line[..2] == "- " && line[2..] == t;
    assert line[..2] != "# " && line[..2] != "**";
    if |line| >= 3 { assert line[..3] != "## "; }
    if |line| >= 4 { assert line[..4] != "### "; }
  }

  lemma {:induction false} DigitRunPrefix(d: string, rest: string)
    requires forall k :: 0 <= k < |d| ==> IsAsciiDigit(d[k])
    requires rest == [] || !IsAsciiDigit(rest[0])
    ensures DigitRun(d + rest) == |d|
    decreases |d|
  {
    if d == [] {
      assert d + rest == rest;
    } else {
      assert (d + rest)[1..] == d[1..] + rest;
      DigitRunPrefix(d[1..], rest);
    }
  }

  /** Digits, a dot and one whitespace character open a numbered item, whatever follows. */
  lemma NumberedLines(d: string, c: char, t: string)
    requires d != [] && forall k :: 0 <= k < |d| ==> IsAsciiDigit(d[k])
    requires IsJsSpace(c)
    ensures ClassifyLine(d + ['.', c] + t) == NumberedItem(d, t)
  {
    var line := d + ['.', c] + t;
    assert line == d + (['.', c] + t);
    DigitRunPrefix(d, ['.', c] + t);
    assert line[0] == d[0];
    assert line[..|d|] == d && line[|d|] == '.' && line[|d| + 1] == c && line[|d| + 2..] == t;
    DiffersAt(line, "# ", 0);
    DiffersAt(line, "## ", 0);
    DiffersAt(line, "### ", 0);
    DiffersAt(line, "**", 0);
    DiffersAt(line, "- ", 0);
  }

  /** A line that no marker opens is a status line when it holds a check mark or a cross,
      and a paragraph with its bold spans rewritten otherwise. */
  lemma PlainLines(line: string)
    requires line != [] && line[0] != '#' && line[0] != '*' && line[0] != '-' && !IsAsciiDigit(line[0])
    ensures Done in line || Failed in line ==> ClassifyLine(line) == StatusLine(line)
    ensures Done !in line && Failed !in line ==> ClassifyLine(line) == Paragraph(BoldRewrite(line))
  {
    DiffersAt(line, "# ", 0);
    DiffersAt(line, "## ", 0);
    DiffersAt(line, "### ", 0);
    DiffersAt(line, "**", 0);
    DiffersAt(line, "- ", 0);
  }

  // ---------------------------------------------------------------------------
  // The bold rewrite

  /** Text up to the first `*` passes through unchanged. */
  lemma {:induction false} BoldRewritePlain(a: string, b: string)
    requires '*' !in a
    ensures BoldRewrite(a + b) == a + BoldRewrite(b)
    decreases |a|
  {
    if a != [] {
      var s := a + b;
      assert s[0] == a[0];
      assert s[1..] == a[1..] + b;
      BoldRewritePlain(a[1..], b);
      if |s| < 4 {
        BoldRewriteShort(b);
      } else {
        assert s[..2][0] == a[0];
      }
    } else {
      assert a + b == b;
    }
  }

  lemma BoldRewriteShort(s: string)
    requires |s| < 4
    ensures BoldRewrite(s) == s
  {
  }

  /** Text without `*` is left as it is. */
  lemma BoldRewriteNoStars(s: string)
    requires '*' !in s
    ensures BoldRewrite(s) == s
  {
    BoldRewritePlain(s, "");
    assert s + "" == s;
  }

  lemma {:induction false} CloseFromSpan(x: string, b: string, j: nat)
    requires '*' !in x && forall k :: 0 <= k < |x| ==> !IsJsLineTerminator(x[k])
    requires 2 <= j <= |x| + 2
    ensures CloseFrom("**" + x + "**" + b, j) == Some(|x| + 2)
    decreases |x| + 2 - j
  {
    var s := "**" + x + "**" + b;
    if j < |x| + 2 {
      assert s[j] == x[j - 2];
      assert s[j..j + 2][0] == s[j];
      CloseFromSpan(x, b, j + 1);
    } else {
      assert s[j..j + 2] == "**";
    }
  }

  /** `**x**` becomes `x` between the strong tags when `x` holds no `*` and no line
      terminator; the rest is rewritten after it. */
  lemma BoldRewriteSpan(x: string, b: string)
    requires '*' !in x && forall k :: 0 <= k < |x| ==> !IsJsLineTerminator(x[k])
    ensures BoldRewrite("**" + x + "**" + b) == StrongOpen + x + StrongClose + BoldRewrite(b)
  {
    var s := "**" + x + "**" + b;
    CloseFromSpan(x, b, 2);
    assert s[..2] == "**";
    assert s[2..|x| + 2] == x;
    assert s[|x| + 4..] == b;
  }

  // ---------------------------------------------------------------------------
  // Whole texts

  /** A text of whitespace only renders as one spacer: splitting the empty string yields
      one empty line. */
  lemma BlankText(text: string)
    requires forall k :: 0 <= k < |text| ==> IsJsSpace(text[k])
    ensures Render(text) == [Some(Spacer)]
  {
    TrimAllSpace(text, JavaScript);
    assert Lines(text) == [""];
    assert TrimAll([""]) == [""];
    RenderGrouped(text);
    assert Group([""]) == [Single("")];
  }

  /** A line with two pipes that stands alone is buffered and then dropped: its table
      has no separator line and comes out as `None`. */
  lemma LoneTableLine(line: string)
    requires IsTableLine(line) && JsTrim(line) == line && '\n' !in line
    ensures Render(line) == [None]
  {
    CountIn(line, '|');
    TrimIdempotent(line, JavaScript);
    TrimCut(line, JavaScript);
    SplitPiece(line, "", '\n');
    assert Lines(line) == [line];
    assert TrimAll([line]) == [line];
    RenderGrouped(line);
    assert Group([line]) == [Run([line])];
  }
}
