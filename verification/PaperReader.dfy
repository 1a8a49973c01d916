/** Reading a paper line by line into candidates: page breaks and section headings set the
    context, markers open a candidate, and other text continues the one that is open. */
module PaperReader {
  import opened Wrappers
  import opened Sequences
  import opened Text
  import opened PaperSplitter

  // What a heading says, given the context before it, and whether a line is a bare section label.
  datatype Headings = Headings(
    read: (string, Option<string>) -> Option<(string, Option<Mode>)>,
    bare: string -> bool)

  datatype Context = Context(page: nat, section: Option<string>, mode: Option<Mode>)

  // A piece of text as it was met: under which page, section and mode.
  datatype Span = Span(context: Context, text: string)

  const START := Context(1, None, None)

  /******* What is read *******/

  function AfterHeading(h: Headings, c: Context, fragment: string): Context {
    var heading := h.read(fragment, c.section);
    if heading.None? then c
    else c.(section := Some(heading.value.0),
            mode := if heading.value.1.Some? then heading.value.1 else if h.bare(fragment) then None else c.mode)
  }

  function SpanIn(c: Context): string -> Span {
    (piece: string) => Span(c, piece)
  }

  function SpansOf(g: Grammar, h: Headings, c: Context, fragment: string): seq<Span> {
    if h.read(fragment, c.section).Some? then []
    else Map(SpanIn(c), Split(g, fragment))
  }

  // A form feed inside a line starts the next page.
  function AfterFragments(h: Headings, c: Context, fragments: seq<string>): (r: Context)
    ensures fragments != [] ==> r.page == c.page + |fragments| - 1
  {
    if fragments == [] then c
    else AfterHeading(h, Turned(AfterFragments(h, c, fragments[..|fragments| - 1]), |fragments| - 1), fragments[|fragments| - 1])
  }

  function Turned(c: Context, index: nat): Context {
    if index > 0 then c.(page := c.page + 1) else c
  }

  function FragmentSpans(g: Grammar, h: Headings, c: Context, fragments: seq<string>): seq<Span> {
    if fragments == [] then []
    else
      var front := fragments[..|fragments| - 1];
      FragmentSpans(g, h, c, front) + SpansOf(g, h, Turned(AfterFragments(h, c, front), |front|), fragments[|fragments| - 1])
  }

  function AfterLines(h: Headings, c: Context, lines: seq<string>): Context {
    if lines == [] then c
    else AfterFragments(h, AfterLines(h, c, lines[..|lines| - 1]), SplitOn(lines[|lines| - 1], 0x0C as char))
  }

  function LineSpans(g: Grammar, h: Headings, c: Context, lines: seq<string>): seq<Span> {
    if lines == [] then []
    else
      var front := lines[..|lines| - 1];
      LineSpans(g, h, c, front) + FragmentSpans(g, h, AfterLines(h, c, front), SplitOn(lines[|lines| - 1], 0x0C as char))
  }

  function Breaks(s: string): nat {
    if s == "" then 0 else (if s[0] == 0x0C as char then 1 else 0) + Breaks(s[1..])
  }

  function AllBreaks(lines: seq<string>): nat {
    if lines == [] then 0 else AllBreaks(lines[..|lines| - 1]) + Breaks(lines[|lines| - 1])
  }

  lemma {:induction false} FragmentsCountBreaks(s: string)
    ensures |SplitOn(s, 0x0C as char)| == Breaks(s) + 1
  {
    if s != "" { FragmentsCountBreaks(s[1..]); }
  }

  /** The page counter is one more than the page breaks read so far. */
  lemma {:induction false} PageCountsBreaks(h: Headings, lines: seq<string>)
    ensures AfterLines(h, START, lines).page == 1 + AllBreaks(lines)
  {
    if lines != [] {
      PageCountsBreaks(h, lines[..|lines| - 1]);
      FragmentsCountBreaks(lines[|lines| - 1]);
    }
  }

  /******* Candidates *******/

  function Opened(c: Context, m: Marker): Candidate {
    Candidate(c.page, m.kind, m.name, [m.text], c.section, c.mode)
  }

  // The candidates of the pieces met so far, the last of them still open.
  function Collected(g: Grammar, spans: seq<Span>): seq<Candidate> {
    if spans == [] then []
    else
      var rest, last := Collected(g, spans[..|spans| - 1]), spans[|spans| - 1];
      var marker := g.start(last.text);
      if marker.Some? then rest + [Opened(last.context, marker.value)]
      else if rest == [] then []
      else rest[|rest| - 1 := rest[|rest| - 1].(lines := rest[|rest| - 1].lines + [Strip(last.text)])]
  }

  function IsMarker(g: Grammar): Span -> bool {
    (s: Span) => g.start(s.text).Some?
  }

  function AllLines(cs: seq<Candidate>): seq<string> {
    if cs == [] then [] else AllLines(cs[..|cs| - 1]) + cs[|cs| - 1].lines
  }

  // The line that a piece contributes.
  function LineOf(g: Grammar): Span -> string {
    (s: Span) => if g.start(s.text).Some? then g.start(s.text).value.text else Strip(s.text)
  }

  // The pieces from the first marker on.
  function FromFirstMarker(g: Grammar, spans: seq<Span>): seq<Span> {
    if spans == [] then []
    else
      var front, last := FromFirstMarker(g, spans[..|spans| - 1]), spans[|spans| - 1];
      if front != [] || g.start(last.text).Some? then front + [last] else []
  }

  lemma AllLinesPush(cs: seq<Candidate>, c: Candidate)
    ensures AllLines(cs + [c]) == AllLines(cs) + c.lines
  {
    assert (cs + [c])[..|cs|] == cs;
  }

  /** Nothing is lost, repeated or reordered: the lines of the candidates, one after the other, are
      exactly the pieces from the first marker on, and there is one candidate for each marker. */
  lemma {:induction false} NothingIsLost(g: Grammar, spans: seq<Span>)
    ensures AllLines(Collected(g, spans)) == Map(LineOf(g), FromFirstMarker(g, spans))
    ensures |Collected(g, spans)| == |Keep(spans, IsMarker(g))|
    ensures Collected(g, spans) == [] <==> FromFirstMarker(g, spans) == []
  {
    if spans != [] {
      var front, last := spans[..|spans| - 1], spans[|spans| - 1];
      NothingIsLost(g, front);
      var rest, read := Collected(g, front), FromFirstMarker(g, front);
      var marker := g.start(last.text);
      MapPush(LineOf(g), read, last);
      if marker.Some? {
        AllLinesPush(rest, Opened(last.context, marker.value));
      } else if rest != [] {
        LastTakesLine(rest, Strip(last.text));
      }
    }
  }

  lemma LastTakesLine(cs: seq<Candidate>, line: string)
    requires cs != []
    ensures AllLines(cs[|cs| - 1 := cs[|cs| - 1].(lines := cs[|cs| - 1].lines + [line])]) == AllLines(cs) + [line]
  {
    var n := |cs| - 1;
    var more := cs[n].(lines := cs[n].lines + [line]);
    assert cs[n := more] == cs[..n] + [more];
    AllLinesPush(cs[..n], more);
    assert AllLines(cs[..n]) + (cs[n].lines + [line]) == (AllLines(cs[..n]) + cs[n].lines) + [line];
  }

  predicate OpenedBy(g: Grammar, c: Candidate, s: Span) {
    var marker := g.start(s.text);
    && marker.Some? && c.lines != []
    && c == Opened(s.context, marker.value).(lines := c.lines) && c.lines[0] == marker.value.text
  }

  /** The k-th candidate keeps the kind, label, page, section and mode of the k-th marker. */
  lemma {:induction false} CandidatesKeepTheirMarker(g: Grammar, spans: seq<Span>, k: nat)
    requires k < |Collected(g, spans)|
    ensures k < |Keep(spans, IsMarker(g))| && OpenedBy(g, Collected(g, spans)[k], Keep(spans, IsMarker(g))[k])
  {
    NothingIsLost(g, spans);
    if spans != [] {
      var front := spans[..|spans| - 1];
      NothingIsLost(g, front);
      if k < |Collected(g, front)| { CandidatesKeepTheirMarker(g, front, k); }
    }
  }

  /******* The reader *******/

  // The variables of the loop.
  datatype Reading = Reading(context: Context, current: Option<Candidate>, closed: seq<Candidate>)

  function Candidates(r: Reading): seq<Candidate> {
    r.closed + (if r.current.None? then [] else [r.current.value])
  }

  function ReadPiece(g: Grammar, r: Reading, line: string): Reading {
    var marker := g.start(line);
    if marker.Some? then r.(closed := Candidates(r), current := Some(Opened(r.context, marker.value)))
    else if r.current.None? then r
    else r.(current := Some(r.current.value.(lines := r.current.value.lines + [Strip(line)])))
  }

  function ReadPieces(g: Grammar, r: Reading, pieces: seq<string>): Reading {
    if pieces == [] then r
    else ReadPiece(g, ReadPieces(g, r, pieces[..|pieces| - 1]), pieces[|pieces| - 1])
  }

  function ReadFragment(g: Grammar, h: Headings, r: Reading, fragment: string): Reading {
    if h.read(fragment, r.context.section).Some? then r.(context := AfterHeading(h, r.context, fragment))
    else ReadPieces(g, r, Split(g, fragment))
  }

  function TurnPage(r: Reading, index: nat): Reading {
    r.(context := Turned(r.context, index))
  }

  function ReadFragments(g: Grammar, h: Headings, r: Reading, fragments: seq<string>): Reading {
    if fragments == [] then r
    else
      var n := |fragments| - 1;
      ReadFragment(g, h, TurnPage(ReadFragments(g, h, r, fragments[..n]), n), fragments[n])
  }

  function ReadLines(g: Grammar, h: Headings, r: Reading, lines: seq<string>): Reading {
    if lines == [] then r
    else
      var n := |lines| - 1;
      ReadFragments(g, h, ReadLines(g, h, r, lines[..n]), SplitOn(lines[n], 0x0C as char))
  }

  // What has been read is what the pieces met so far collect to.
  predicate Represents(g: Grammar, r: Reading, spans: seq<Span>) {
    Candidates(r) == Collected(g, spans) && (r.current.None? ==> r.closed == [])
  }

  lemma PieceRepresented(g: Grammar, r: Reading, spans: seq<Span>, line: string)
    requires Represents(g, r, spans)
    ensures Represents(g, ReadPiece(g, r, line), spans + [Span(r.context, line)])
    ensures ReadPiece(g, r, line).context == r.context
  {
    var more := spans + [Span(r.context, line)];
    assert more[..|more| - 1] == spans;
    if g.start(line).None? && r.current.Some? {
      var all := Candidates(r);
      assert all[|all| - 1] == r.current.value && all[..|all| - 1] == r.closed;
    }
  }

  lemma {:induction false} PiecesRepresented(g: Grammar, r: Reading, spans: seq<Span>, pieces: seq<string>)
    requires Represents(g, r, spans)
    ensures Represents(g, ReadPieces(g, r, pieces), spans + Map(SpanIn(r.context), pieces))
    ensures ReadPieces(g, r, pieces).context == r.context
  {
    if pieces == [] {
      assert spans + Map(SpanIn(r.context), pieces) == spans;
    } else {
      var front, last := pieces[..|pieces| - 1], pieces[|pieces| - 1];
      PiecesRepresented(g, r, spans, front);
      var met := spans + Map(SpanIn(r.context), front);
      PieceRepresented(g, ReadPieces(g, r, front), met, last);
      MapPush(SpanIn(r.context), front, last);
      assert pieces == front + [last];
      assert spans + Map(SpanIn(r.context), pieces) == met + [Span(r.context, last)];
    }
  }

  lemma {:induction false} PiecesKeepContext(g: Grammar, r: Reading, pieces: seq<string>)
    ensures ReadPieces(g, r, pieces).context == r.context
  {
    if pieces != [] { PiecesKeepContext(g, r, pieces[..|pieces| - 1]); }
  }

  lemma {:induction false} FragmentsContext(g: Grammar, h: Headings, r: Reading, fragments: seq<string>)
    ensures ReadFragments(g, h, r, fragments).context == AfterFragments(h, r.context, fragments)
  {
    if fragments != [] {
      var n := |fragments| - 1;
      FragmentsContext(g, h, r, fragments[..n]);
      var before := TurnPage(ReadFragments(g, h, r, fragments[..n]), n);
      PiecesKeepContext(g, before, Split(g, fragments[n]));
    }
  }

  lemma {:induction false} LinesContext(g: Grammar, h: Headings, r: Reading, lines: seq<string>)
    ensures ReadLines(g, h, r, lines).context == AfterLines(h, r.context, lines)
  {
    if lines != [] {
      var n := |lines| - 1;
      LinesContext(g, h, r, lines[..n]);
      FragmentsContext(g, h, ReadLines(g, h, r, lines[..n]), SplitOn(lines[n], 0x0C as char));
    }
  }

  lemma FragmentRepresented(g: Grammar, h: Headings, r: Reading, spans: seq<Span>, fragment: string)
    requires Represents(g, r, spans)
    ensures Represents(g, ReadFragment(g, h, r, fragment), spans + SpansOf(g, h, r.context, fragment))
  {
    if h.read(fragment, r.context.section).Some? {
      assert spans + [] == spans;
    } else {
      PiecesRepresented(g, r, spans, Split(g, fragment));
    }
  }

  lemma Reassociated(a: seq<Span>, b: seq<Span>, c: seq<Span>)
    ensures a + b + c == a + (b + c)
  {
  }

  lemma {:induction false} FragmentsRepresented(g: Grammar, h: Headings, r: Reading, spans: seq<Span>, fragments: seq<string>)
    requires Represents(g, r, spans)
    ensures Represents(g, ReadFragments(g, h, r, fragments), spans + FragmentSpans(g, h, r.context, fragments))
  {
    if fragments == [] {
      assert spans + [] == spans;
    } else {
      var n := |fragments| - 1;
      FragmentsRepresented(g, h, r, spans, fragments[..n]);
      FragmentsContext(g, h, r, fragments[..n]);
      var before, met := ReadFragments(g, h, r, fragments[..n]), FragmentSpans(g, h, r.context, fragments[..n]);
      FragmentRepresented(g, h, TurnPage(before, n), spans + met, fragments[n]);
      Reassociated(spans, met, SpansOf(g, h, Turned(before.context, n), fragments[n]));
    }
  }

  lemma {:induction false} LinesRepresented(g: Grammar, h: Headings, r: Reading, spans: seq<Span>, lines: seq<string>)
    requires Represents(g, r, spans)
    ensures Represents(g, ReadLines(g, h, r, lines), spans + LineSpans(g, h, r.context, lines))
  {
    if lines == [] {
      assert spans + [] == spans;
    } else {
      var n := |lines| - 1;
      LinesRepresented(g, h, r, spans, lines[..n]);
      LinesContext(g, h, r, lines[..n]);
      var before, met := ReadLines(g, h, r, lines[..n]), LineSpans(g, h, r.context, lines[..n]);
      var fragments := SplitOn(lines[n], 0x0C as char);
      FragmentsRepresented(g, h, before, spans + met, fragments);
      Reassociated(spans, met, FragmentSpans(g, h, before.context, fragments));
    }
  }

  const NOTHING := Reading(START, None, [])

  method ReadFragmentOf(g: Grammar, h: Headings, before: Reading, fragment: string) returns (r: Reading)
    ensures r == ReadFragment(g, h, before, fragment)
  {
    r := before;
    var heading := h.read(fragment, r.context.section);
    if heading.Some? {
      var (section, detected) := heading.value;
      var mode := r.context.mode;
      if detected.Some? {
        mode := detected;
      } else if h.bare(fragment) {
        mode := None;
      }
      return r.(context := r.context.(section := Some(section), mode := mode));
    }
    var pieces := SplitInlineStarts(g, fragment);
    var k := 0;
    while k < |pieces|
      invariant k <= |pieces| && r == ReadPieces(g, before, pieces[..k])
    {
      assert pieces[..k + 1][..k] == pieces[..k];
      r := ReadOne(g, r, pieces[k]);
      k := k + 1;
    }
    assert pieces[..k] == pieces;
  }

  method ReadOne(g: Grammar, before: Reading, line: string) returns (r: Reading)
    ensures r == ReadPiece(g, before, line)
  {
    r := before;
    var marker := g.start(line);
    if marker.Some? {
      if r.current.Some? { r := r.(closed := r.closed + [r.current.value]); }
      var Marker(kind, name, text) := marker.value;
      r := r.(current := Some(Candidate(r.context.page, kind, name, [text], r.context.section, r.context.mode)));
    } else if r.current.Some? {
      var c := r.current.value;
      r := r.(current := Some(c.(lines := c.lines + [Strip(line)])));
    }
  }

  method ReadLineOf(g: Grammar, h: Headings, before: Reading, fragments: seq<string>) returns (r: Reading)
    ensures r == ReadFragments(g, h, before, fragments)
  {
    r := before;
    var k := 0;
    while k < |fragments|
      invariant k <= |fragments| && r == ReadFragments(g, h, before, fragments[..k])
    {
      assert fragments[..k + 1][..k] == fragments[..k];
      if k > 0 { r := r.(context := r.context.(page := r.context.page + 1)); }
      r := ReadFragmentOf(g, h, r, fragments[k]);
      k := k + 1;
    }
    assert fragments[..k] == fragments;
  }

  /** The first half of extract_ordered_questions: reading the paper in one pass collects exactly
      the candidates of its pieces, each piece under its own page, section and mode. */
  method ReadPaper(g: Grammar, h: Headings, source: string) returns (cs: seq<Candidate>)
    ensures cs == Collected(g, LineSpans(g, h, START, SplitOn(source, '\n')))
  {
    var lines := SplitOn(source, '\n');
    var r := NOTHING;
    var k := 0;
    while k < |lines|
      invariant k <= |lines| && r == ReadLines(g, h, NOTHING, lines[..k])
    {
      assert lines[..k + 1][..k] == lines[..k];
      r := ReadLineOf(g, h, r, SplitOn(lines[k], 0x0C as char));
      k := k + 1;
    }
    assert lines[..k] == lines;
    LinesRepresented(g, h, NOTHING, [], lines);
    assert [] + LineSpans(g, h, START, lines) == LineSpans(g, h, START, lines);
    cs := r.closed;
    if r.current.Some? { cs := cs + [r.current.value]; }
  }
}
