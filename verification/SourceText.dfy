/** Layout normalization of a paper's source text: white space and line ends only. */
module SourceText {
  import opened Wrappers
  import opened Sequences
  import opened Text

  const FORM_FEED := 0x0C as char
  const PAGE_BREAK := [FORM_FEED, '\n']

  /******* The passes *******/

  // replace("\r\n", "\n")
  function WithoutCrLf(s: string): string {
    if s == "" then ""
    else if |s| > 1 && s[0] == '\r' && s[1] == '\n' then ['\n'] + WithoutCrLf(s[2..])
    else [s[0]] + WithoutCrLf(s[1..])
  }

  // replace("\r", "\n")
  function WithoutCr(s: string): (r: string)
    ensures '\r' !in r
  {
    if s == "" then "" else [if s[0] == '\r' then '\n' else s[0]] + WithoutCr(s[1..])
  }

  function Unified(s: string): string {
    WithoutCr(WithoutCrLf(s))
  }

  predicate IsBlank(c: char) {
    c == ' ' || c == '\t'
  }

  // Runs of spaces and tabs become one space.
  function Collapse(s: string): string {
    if s == "" then ""
    else if !IsBlank(s[0]) then [s[0]] + Collapse(s[1..])
    else if |s| > 1 && IsBlank(s[1]) then Collapse(s[1..])
    else [' '] + Collapse(s[1..])
  }

  function Line(s: string): (r: string)
    ensures Trimmed(r)
  {
    Strip(Collapse(s))
  }

  function LineOf(): string -> string {
    (s: string) => Line(s)
  }

  function Lines(parts: seq<string>): (r: seq<string>)
    ensures |r| == |parts|
  {
    Map(LineOf(), parts)
  }

  function Page(s: string): (r: string)
    ensures Trimmed(r)
  {
    Strip(Join(Lines(SplitOn(s, '\n')), "\n"))
  }

  function PageOf(): string -> string {
    (s: string) => Page(s)
  }

  function Pages(parts: seq<string>): (r: seq<string>)
    ensures |r| == |parts|
  {
    Map(PageOf(), parts)
  }

  function Normalized(s: string): string {
    Strip(Join(Pages(SplitOn(Unified(s), FORM_FEED)), PAGE_BREAK))
  }

  /******* Lines *******/

  predicate Collapsed(s: string) {
    && (forall i | 0 <= i < |s| :: s[i] != '\t')
    && (forall i | 0 < i < |s| :: s[i - 1] != ' ' || s[i] != ' ')
  }

  lemma {:induction false} CollapseCollapses(s: string)
    ensures Collapsed(Collapse(s))
    ensures s != "" ==> Collapse(s) != "" && (Collapse(s)[0] == ' ' <==> IsBlank(s[0]))
  {
    if s != "" { CollapseCollapses(s[1..]); }
  }

  lemma {:induction false} CollapsedStays(s: string)
    requires Collapsed(s)
    ensures Collapse(s) == s
  {
    if s != "" {
      CollapsedStays(s[1..]);
      assert s == [s[0]] + s[1..];
    }
  }

  lemma {:induction false} CollapseAvoids(s: string, c: char)
    requires c !in s && c != ' '
    ensures c !in Collapse(s)
  {
    if s != "" { CollapseAvoids(s[1..], c); }
  }

  lemma StripIsPart(s: string) returns (i: nat, j: nat)
    ensures i <= j <= |s| && Strip(s) == s[i..j]
  {
    i := |s| - |TrimStart(s)|;
    j := i + |Strip(s)|;
  }

  lemma LineIsCollapsed(s: string)
    ensures Collapsed(Line(s))
  {
    CollapseCollapses(s);
    var i, j := StripIsPart(Collapse(s));
    PartIsCollapsed(Collapse(s), i, j);
  }

  lemma PartIsCollapsed(s: string, i: nat, j: nat)
    requires Collapsed(s) && i <= j <= |s|
    ensures Collapsed(s[i..j])
  {
  }

  lemma LineIsDone(s: string)
    ensures Line(Line(s)) == Line(s)
  {
    LineIsCollapsed(s);
    CollapsedStays(Line(s));
    TrimmedIsStripped(Line(s));
  }

  lemma LineAvoids(s: string, c: char)
    requires c !in s && c != ' '
    ensures c !in Line(s)
  {
    var i, j := StripIsPart(Collapse(s));
    CollapseAvoids(s, c);
  }

  lemma {:induction false} SplitAvoids(s: string, sep: char, c: char)
    requires c !in s
    ensures forall p | p in SplitOn(s, sep) :: c !in p
  {
    if s != "" { SplitAvoids(s[1..], sep, c); }
  }

  lemma {:induction false} JoinAvoids(parts: seq<string>, sep: string, c: char)
    requires c !in sep && forall p | p in parts :: c !in p
    ensures c !in Join(parts, sep)
  {
    if |parts| > 1 { JoinAvoids(parts[1..], sep, c); }
  }

  /******* Pages *******/

  // The lines a normalized page is left with.
  function PageLines(s: string): (r: seq<string>)
    ensures forall p | p in r :: p in Lines(SplitOn(s, '\n'))
  {
    DropEmptyEnds(Lines(SplitOn(s, '\n')))
  }

  lemma LinesAreDone(parts: seq<string>, c: char)
    requires c != ' ' && forall p | p in parts :: c !in p
    ensures forall p | p in Lines(parts) :: c !in p && Trimmed(p) && Line(p) == p
  {
    forall i | 0 <= i < |parts| ensures c !in Lines(parts)[i] && Trimmed(Lines(parts)[i]) && Line(Lines(parts)[i]) == Lines(parts)[i] {
      assert parts[i] in parts;
      MapAt(LineOf(), parts, i);
      LineIsDone(parts[i]);
      LineAvoids(parts[i], c);
    }
  }

  /** A page is left with its normalized lines, from its first to its last non-empty one. */
  lemma PageIsItsLines(s: string)
    ensures Page(s) == Join(PageLines(s), "\n")
    ensures forall p | p in PageLines(s) :: '\n' !in p && Trimmed(p) && Line(p) == p
  {
    LinesAreDone(SplitOn(s, '\n'), '\n');
    StripJoin(Lines(SplitOn(s, '\n')), "\n");
  }

  lemma PageAvoids(s: string, c: char)
    requires c !in s && c != ' ' && c != '\n'
    ensures c !in Page(s)
  {
    SplitAvoids(s, '\n', c);
    LinesAreDone(SplitOn(s, '\n'), c);
    PageIsItsLines(s);
    JoinAvoids(PageLines(s), "\n", c);
  }

  lemma LinesStay(parts: seq<string>)
    requires forall p | p in parts :: Line(p) == p
    ensures Lines(parts) == parts
  {
    forall i | 0 <= i < |parts| ensures Line(parts[i]) == parts[i] { assert parts[i] in parts; }
    MapTo(LineOf(), parts, parts);
  }

  lemma SplitLines(d: seq<string>)
    requires forall p | p in d :: '\n' !in p
    ensures var q := Join(d, "\n");
            && SplitOn(q, '\n') == (if d == [] then [""] else d)
            && SplitOn(['\n'] + q, '\n') == [""] + (if d == [] then [""] else d)
  {
    var q := Join(d, "\n");
    if d != [] { SplitJoin(d, '\n'); }
    assert (['\n'] + q)[1..] == q;
  }

  lemma {:induction false} SameLines(d: seq<string>)
    requires forall p | p in d :: '\n' !in p && Line(p) == p
    ensures Join(Lines(SplitOn(Join(d, "\n"), '\n')), "\n") == Join(d, "\n")
    ensures Join(Lines(SplitOn(['\n'] + Join(d, "\n"), '\n')), "\n") == ['\n'] + Join(d, "\n")
  {
    var lines := if d == [] then [""] else d;
    SplitLines(d);
    EmptyLine("");
    assert Join(lines, "\n") == Join(d, "\n");
    PlainLines(lines, Join(d, "\n"));
    BrokenLines(lines, Join(d, "\n"));
  }

  lemma PlainLines(lines: seq<string>, q: string)
    requires SplitOn(q, '\n') == lines && Join(lines, "\n") == q && forall p | p in lines :: Line(p) == p
    ensures Join(Lines(SplitOn(q, '\n')), "\n") == q
  {
    LinesStay(lines);
  }

  lemma {:induction false} BrokenLines(lines: seq<string>, q: string)
    requires lines != [] && SplitOn(['\n'] + q, '\n') == [""] + lines && Join(lines, "\n") == q
    requires Line("") == "" && forall p | p in lines :: Line(p) == p
    ensures Join(Lines(SplitOn(['\n'] + q, '\n')), "\n") == ['\n'] + q
  {
    LinesStay([""] + lines);
    JoinAfterEmpty(lines);
  }

  lemma EmptyLine(s: string)
    requires s == ""
    ensures Line(s) == ""
  {
  }

  lemma JoinAfterEmpty(lines: seq<string>)
    requires lines != []
    ensures Join([""] + lines, "\n") == ['\n'] + Join(lines, "\n")
  {
    assert ([""] + lines)[1..] == lines;
  }

  lemma PageStays(q: string)
    ensures Join(Lines(SplitOn(q, '\n')), "\n") == q && Strip(q) == q ==> Page(q) == q
  {
  }

  lemma PageStaysAfterBreak(q: string)
    ensures Join(Lines(SplitOn(['\n'] + q, '\n')), "\n") == ['\n'] + q && Strip(q) == q ==> Page(['\n'] + q) == q
  {
    TrimStartOver(['\n'], q);
  }

  lemma TrimmedPage(s: string)
    ensures Trimmed(Page(s)) && Strip(Page(s)) == Page(s)
  {
    TrimmedIsStripped(Page(s));
  }

  /** Normalizing a normalized page changes nothing, nor does the line end that a page break puts
      before it. */
  lemma PageAgain(s: string)
    ensures Page(Page(s)) == Page(s) && Page(['\n'] + Page(s)) == Page(s)
  {
    PageIsItsLines(s);
    SameLines(PageLines(s));
    TrimmedPage(s);
    PageStays(Page(s));
    PageStaysAfterBreak(Page(s));
  }

  /******* The whole text *******/

  // The pages a normalized text is left with.
  function TextPages(s: string): (r: seq<string>)
    ensures forall p | p in r :: p in Pages(SplitOn(Unified(s), FORM_FEED))
  {
    DropEmptyEnds(Pages(SplitOn(Unified(s), FORM_FEED)))
  }

  // A page that a further normalization leaves alone.
  predicate Done(p: string) {
    Trimmed(p) && FORM_FEED !in p && '\r' !in p && Page(p) == p && Page(['\n'] + p) == p
  }

  lemma PageIsDone(part: string)
    requires FORM_FEED !in part && '\r' !in part
    ensures Done(Page(part))
  {
    PageAvoids(part, FORM_FEED);
    PageAvoids(part, '\r');
    PageAgain(part);
  }

  lemma PagesAreDone(parts: seq<string>)
    requires forall p | p in parts :: FORM_FEED !in p && '\r' !in p
    ensures forall p | p in Pages(parts) :: Done(p)
  {
    forall i | 0 <= i < |parts| ensures Done(Pages(parts)[i]) {
      assert parts[i] in parts;
      MapAt(PageOf(), parts, i);
      PageIsDone(parts[i]);
    }
  }

  /** The text is left with its normalized pages: every page boundary between two non-empty pages
      stays, empty pages in between included; only empty pages at the two ends are dropped. */
  lemma TextIsItsPages(s: string)
    ensures Normalized(s) == Join(TextPages(s), PAGE_BREAK)
    ensures forall p | p in TextPages(s) :: Done(p)
  {
    SplitAvoids(Unified(s), FORM_FEED, '\r');
    PagesAreDone(SplitOn(Unified(s), FORM_FEED));
    StripJoin(Pages(SplitOn(Unified(s), FORM_FEED)), PAGE_BREAK);
  }

  /******* Page boundaries *******/

  lemma WholeJoinStays(parts: seq<string>, sep: string)
    requires AllSpace(sep) && AllTrimmed(parts) && parts != []
    requires |parts| == 1 || (parts[0] != "" && parts[|parts| - 1] != "")
    ensures Strip(Join(parts, sep)) == Join(parts, sep)
  {
    if |parts| == 1 {
      assert Trimmed(parts[0]);
      TrimmedIsStripped(parts[0]);
    } else {
      StripJoin(parts, sep);
    }
  }

  lemma BlankEndsAreCut(blank: string, s: string)
    requires AllSpace(blank) && blank != ""
    ensures Strip(blank + s) != blank + s && Strip(s + blank) != s + blank
  {
    assert (blank + s)[0] == blank[0] && blank[0] in blank;
    assert (s + blank)[|s + blank| - 1] == blank[|blank| - 1] && blank[|blank| - 1] in blank;
  }

  lemma JoinEmptyLast(parts: seq<string>, sep: string)
    requires |parts| > 1 && parts[|parts| - 1] == ""
    ensures Join(parts, sep) == Join(parts[..|parts| - 1], sep) + sep
  {
    var front, last := parts[..|parts| - 1], parts[|parts| - 1];
    assert parts == front + [last];
    JoinLast(front, last, sep);
    assert Join(front, sep) + sep + last == Join(front, sep) + sep;
  }

  lemma EmptyEndIsCut(parts: seq<string>, sep: string)
    requires AllSpace(sep) && sep != "" && |parts| > 1 && (parts[0] == "" || parts[|parts| - 1] == "")
    ensures Strip(Join(parts, sep)) != Join(parts, sep)
  {
    if parts[0] == "" {
      assert Join(parts, sep) == sep + Join(parts[1..], sep);
      BlankEndsAreCut(sep, Join(parts[1..], sep));
    } else {
      JoinEmptyLast(parts, sep);
      BlankEndsAreCut(sep, Join(parts[..|parts| - 1], sep));
    }
  }

  lemma WholeJoinExactly(parts: seq<string>, sep: string)
    requires AllSpace(sep) && sep != "" && AllTrimmed(parts) && parts != []
    ensures Strip(Join(parts, sep)) == Join(parts, sep) <==> |parts| == 1 || (parts[0] != "" && parts[|parts| - 1] != "")
  {
    if |parts| == 1 || (parts[0] != "" && parts[|parts| - 1] != "") {
      WholeJoinStays(parts, sep);
    } else {
      EmptyEndIsCut(parts, sep);
    }
  }

  lemma TrimmedInk(r: string)
    requires Trimmed(r)
    ensures r == "" <==> Ink(r) == ""
  {
  }

  lemma BoundariesOf(parts: seq<string>, pages: seq<string>, sep: string)
    requires |pages| == |parts| > 0 && AllTrimmed(pages) && AllSpace(sep) && sep != ""
    requires Ink(pages[0]) == Ink(parts[0]) && Ink(pages[|pages| - 1]) == Ink(parts[|parts| - 1])
    ensures Strip(Join(pages, sep)) == Join(pages, sep) <==> EndsVisible(parts)
  {
    assert Trimmed(pages[0]) && Trimmed(pages[|pages| - 1]);
    TrimmedInk(pages[0]);
    TrimmedInk(pages[|pages| - 1]);
    WholeJoinExactly(pages, sep);
  }

  lemma BoundariesMapped(f: string -> string, parts: seq<string>, sep: string)
    requires parts != [] && AllSpace(sep) && sep != "" && forall p | p in parts :: Trimmed(f(p)) && Ink(f(p)) == Ink(p)
    ensures Strip(Join(Map(f, parts), sep)) == Join(Map(f, parts), sep) <==> EndsVisible(parts)
  {
    forall i | 0 <= i < |parts| ensures Trimmed(Map(f, parts)[i]) && Ink(Map(f, parts)[i]) == Ink(parts[i]) {
      MapAt(f, parts, i);
      assert parts[i] in parts;
    }
    BoundariesOf(parts, Map(f, parts), sep);
  }

  // A single part, or a first and a last one that hold something visible.
  predicate EndsVisible(parts: seq<string>)
    requires parts != []
  {
    |parts| == 1 || (Ink(parts[0]) != "" && Ink(parts[|parts| - 1]) != "")
  }

  /** Page boundaries are preserved, every page of the text becoming one page of the result, exactly
      when the text has a single page, or both its first and its last page hold something visible. */
  lemma BoundariesStayExactly(s: string)
    ensures var parts := SplitOn(Unified(s), FORM_FEED);
            Normalized(s) == Join(Pages(parts), PAGE_BREAK) <==> EndsVisible(parts)
  {
    var parts := SplitOn(Unified(s), FORM_FEED);
    forall p | p in parts ensures Trimmed(PageOf()(p)) && Ink(PageOf()(p)) == Ink(p) { InkOfPage(p); }
    BoundariesMapped(PageOf(), parts, PAGE_BREAK);
  }

  // One visible character, with white space at neither end.
  lemma OnlyInk(r: string, c: char)
    requires Trimmed(r) && Ink(r) == [c]
    ensures r == [c]
  {
    assert r != "" && Ink(r) == [r[0]] + Ink(r[1..]);
    if |r| > 1 {
      var back := r[1..];
      assert Ink(back) == "";
      assert back == back[..|back| - 1] + [back[|back| - 1]];
      InkConcat(back[..|back| - 1], [back[|back| - 1]]);
    }
  }

  lemma LetterAlone(letter: char, mark: char)
    requires letter != mark && !IsSpace(letter) && IsSpace(mark)
    ensures SplitOn([mark, letter], mark) == ["", [letter]] && Ink([mark, letter]) == [letter] && Ink("") == ""
  {
    var s, rest := [mark, letter], [letter];
    assert s[1..] == rest && rest[1..] == "";
    assert SplitOn("", mark) == [""] && [letter] + "" == rest && SplitOn(rest, mark) == [rest];
    assert Ink(rest) == rest;
  }

  /** So a page break before a single letter does not come through. */
  lemma LeadingBreakIsDropped(s: string)
    requires s == [FORM_FEED, 'a']
    ensures SplitOn(Unified(s), FORM_FEED) == ["", "a"] && Normalized(s) == "a"
    ensures Normalized(s) != Join(Pages(["", "a"]), PAGE_BREAK)
  {
    NoCrStays(s);
    LetterAlone('a', FORM_FEED);
    BoundariesStayExactly(s);
    NormalizedKeepsInk(s);
    OnlyInk(Normalized(s), 'a');
  }

  lemma {:induction false} NoCrStays(s: string)
    requires '\r' !in s
    ensures Unified(s) == s
  {
    if s != "" {
      NoCrStays(s[1..]);
      assert s == [s[0]] + s[1..];
    }
  }

  // Pages after the first begin with the line end of the break before them.
  function Shifted(pages: seq<string>): seq<string> {
    seq(|pages|, i requires 0 <= i < |pages| => if i == 0 then pages[i] else ['\n'] + pages[i])
  }

  lemma {:induction false} ShiftBreaks(pages: seq<string>, rest: seq<string>)
    requires |rest| == |pages| && forall i | 0 <= i < |pages| :: rest[i] == if i == 0 then pages[i] else ['\n'] + pages[i]
    ensures Join(pages, PAGE_BREAK) == Join(rest, [FORM_FEED])
  {
    if |pages| > 1 {
      var next := [pages[1]] + rest[2..];
      ShiftBreaks(pages[1..], next);
      JoinPrefix(['\n'], rest[1..], next, [FORM_FEED]);
      assert pages[0] + PAGE_BREAK + Join(pages[1..], PAGE_BREAK) == pages[0] + [FORM_FEED] + (['\n'] + Join(pages[1..], PAGE_BREAK));
    }
  }

  lemma JoinPrefix(prefix: string, a: seq<string>, b: seq<string>, sep: string)
    requires a != [] && |a| == |b| && a[0] == prefix + b[0] && a[1..] == b[1..]
    ensures Join(a, sep) == prefix + Join(b, sep)
  {
    assert (prefix + b[0]) + sep + Join(b[1..], sep) == prefix + (b[0] + sep + Join(b[1..], sep));
  }

  lemma SplitPages(pages: seq<string>)
    requires pages != [] && forall p | p in pages :: FORM_FEED !in p
    ensures SplitOn(Join(pages, PAGE_BREAK), FORM_FEED) == Shifted(pages)
  {
    var rest := Shifted(pages);
    forall i | 0 <= i < |rest| ensures FORM_FEED !in rest[i] { assert pages[i] in pages; }
    ShiftBreaks(pages, rest);
    SplitJoin(rest, FORM_FEED);
  }

  lemma ShiftedMapped(f: string -> string, pages: seq<string>)
    requires forall p | p in pages :: f(p) == p && f(['\n'] + p) == p
    ensures Map(f, Shifted(pages)) == pages
  {
    forall i | 0 <= i < |pages| ensures f(Shifted(pages)[i]) == pages[i] { assert pages[i] in pages; }
    MapTo(f, Shifted(pages), pages);
  }

  lemma PagesStay(pages: seq<string>)
    requires forall p | p in pages :: Done(p)
    ensures Pages(Shifted(pages)) == pages
  {
    forall p | p in pages ensures PageOf()(p) == p && PageOf()(['\n'] + p) == p { assert Done(p); }
    ShiftedMapped(PageOf(), pages);
  }

  lemma TextOfPages(pages: seq<string>)
    requires pages != [] && pages == DropEmptyEnds(pages) && forall p | p in pages :: Done(p)
    ensures Normalized(Join(pages, PAGE_BREAK)) == Join(pages, PAGE_BREAK)
  {
    JoinAvoids(pages, PAGE_BREAK, '\r');
    NoCrStays(Join(pages, PAGE_BREAK));
    SplitPages(pages);
    PagesStay(pages);
    StripJoin(pages, PAGE_BREAK);
  }

  // A text without a visible character is left empty.
  lemma {:induction false} InklessText(s: string)
    requires Ink(s) == ""
    ensures Normalized(s) == ""
  {
    NormalizedKeepsInk(s);
    StrippedInk(Join(Pages(SplitOn(Unified(s), FORM_FEED)), PAGE_BREAK));
  }

  lemma StrippedInk(s: string)
    requires Ink(Strip(s)) == ""
    ensures Strip(s) == ""
  {
  }

  /** Normalization is idempotent. */
  lemma NormalizedAgain(s: string)
    ensures Normalized(Normalized(s)) == Normalized(s)
  {
    TextIsItsPages(s);
    DropTwice(Pages(SplitOn(Unified(s), FORM_FEED)));
    if TextPages(s) == [] {
      InklessText(Normalized(s));
    } else {
      TextOfPages(TextPages(s));
    }
  }

  /******* Nothing but white space changes *******/

  lemma {:induction false} InkOfCr(s: string)
    ensures Ink(WithoutCr(s)) == Ink(s)
  {
    if s != "" { InkOfCr(s[1..]); }
  }

  lemma {:induction false} InkOfCrLf(s: string)
    ensures Ink(WithoutCrLf(s)) == Ink(s)
  {
    if s != "" {
      if |s| > 1 && s[0] == '\r' && s[1] == '\n' {
        InkOfCrLf(s[2..]);
        assert s[1..][1..] == s[2..];
      } else {
        InkOfCrLf(s[1..]);
      }
    }
  }

  lemma {:induction false} InkOfCollapse(s: string)
    ensures Ink(Collapse(s)) == Ink(s)
  {
    if s != "" { InkOfCollapse(s[1..]); }
  }

  lemma InkOfMapped(f: string -> string, parts: seq<string>, before: string, after: string)
    requires AllSpace(before) && AllSpace(after) && forall p | p in parts :: Ink(f(p)) == Ink(p)
    ensures Ink(Join(Map(f, parts), after)) == Ink(Join(parts, before))
  {
    forall i | 0 <= i < |parts| ensures Ink(Map(f, parts)[i]) == Ink(parts[i]) { assert parts[i] in parts; }
    InkOfAllSame(Map(f, parts), parts);
    InkOfJoin(Map(f, parts), after);
    InkOfJoin(parts, before);
  }

  lemma InkOfLine(s: string)
    ensures Ink(Line(s)) == Ink(s)
  {
    InkOfCollapse(s);
    InkOfStrip(Collapse(s));
  }

  lemma InkOfPage(s: string)
    ensures Ink(Page(s)) == Ink(s)
  {
    var parts := SplitOn(s, '\n');
    forall p | p in parts ensures Ink(LineOf()(p)) == Ink(p) { InkOfLine(p); }
    InkOfMapped(LineOf(), parts, ['\n'], "\n");
    JoinSplit(s, '\n');
    InkOfStrip(Join(Lines(parts), "\n"));
  }

  lemma {:induction false} InkOfPages(parts: seq<string>)
    ensures Ink(Strip(Join(Pages(parts), PAGE_BREAK))) == Ink(Join(parts, [FORM_FEED]))
  {
    forall p | p in parts ensures Ink(PageOf()(p)) == Ink(p) { InkOfPage(p); }
    InkOfMapped(PageOf(), parts, [FORM_FEED], PAGE_BREAK);
    InkOfStrip(Join(Pages(parts), PAGE_BREAK));
  }

  /** The visible characters of a paper come through unchanged and in order. */
  lemma NormalizedKeepsInk(s: string)
    ensures Ink(Normalized(s)) == Ink(s)
  {
    InkOfCrLf(s);
    InkOfCr(WithoutCrLf(s));
    InkOfPages(SplitOn(Unified(s), FORM_FEED));
    JoinSplit(Unified(s), FORM_FEED);
  }

  /******* The normalization *******/

  method NormalizePage(page: string) returns (r: string)
    ensures r == Page(page)
  {
    var lines := Lines(SplitOn(page, '\n'));
    r := Strip(Join(lines, "\n"));
  }

  method NormalizePages(parts: seq<string>) returns (pages: seq<string>)
    ensures pages == Pages(parts)
  {
    pages := [];
    var i := 0;
    while i < |parts|
      invariant i <= |parts| && pages == Map(PageOf(), parts[..i])
    {
      assert parts[..i + 1] == parts[..i] + [parts[i]];
      MapPush(PageOf(), parts[..i], parts[i]);
      var page := NormalizePage(parts[i]);
      pages := pages + [page];
      i := i + 1;
    }
    assert parts[..i] == parts;
  }

  /** normalize_source_text: an over-long result is an error; otherwise normalizing the result
      again gives it back, and only white space has changed. */
  method NormalizeSourceText(text: string, maxCharacters: nat) returns (r: Result<string>)
    ensures r.Success? <==> |Normalized(text)| <= maxCharacters
    ensures r.Success? ==> r.value == Normalized(text) && Normalized(r.value) == r.value && Ink(r.value) == Ink(text)
  {
    var pages := NormalizePages(SplitOn(WithoutCr(WithoutCrLf(text)), FORM_FEED));
    var normalized := Strip(Join(pages, PAGE_BREAK));
    NormalizedAgain(text);
    NormalizedKeepsInk(text);
    r := if |normalized| > maxCharacters then Failure("MULTIPLE_ASK_SOURCE_TEXT_INVALID") else Success(normalized);
  }
}
