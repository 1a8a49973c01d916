/** Python's string methods that the sources use, on ASCII white space. */
module Text {

  predicate IsSpace(c: char) {
    || c == ' ' || c == '\t' || c == '\n' || c == '\r' || c == 0x0B as char || c == 0x0C as char
    || c == 0x1C as char || c == 0x1D as char || c == 0x1E as char || c == 0x1F as char
  }

  predicate AllSpace(s: string) {
    forall c | c in s :: IsSpace(c)
  }

  // rstrip
  function TrimEnd(s: string): (r: string)
    ensures r <= s
    ensures r != "" ==> !IsSpace(r[|r| - 1])
  {
    if s != "" && IsSpace(s[|s| - 1]) then TrimEnd(s[..|s| - 1]) else s
  }

  // lstrip
  function TrimStart(s: string): (r: string)
    ensures |r| <= |s| && r == s[|s| - |r|..]
    ensures r != "" ==> !IsSpace(r[0])
  {
    if s != "" && IsSpace(s[0]) then TrimStart(s[1..]) else s
  }

  // strip
  function Strip(s: string): (r: string)
    ensures r != "" ==> !IsSpace(r[0]) && !IsSpace(r[|r| - 1])
  {
    TrimEnd(TrimStart(s))
  }

  // Neither starts nor ends with white space.
  predicate Trimmed(s: string) {
    s != "" ==> !IsSpace(s[0]) && !IsSpace(s[|s| - 1])
  }

  lemma TrimmedIsStripped(s: string)
    requires Trimmed(s)
    ensures Strip(s) == s
  {
  }

  // split on one character
  function SplitOn(s: string, c: char): (parts: seq<string>)
    ensures parts != []
    ensures forall p | p in parts :: c !in p
  {
    if s == "" then [""]
    else
      var rest := SplitOn(s[1..], c);
      if s[0] == c then [""] + rest else [[s[0]] + rest[0]] + rest[1..]
  }

  // join
  function Join(parts: seq<string>, sep: string): string {
    if parts == [] then ""
    else if |parts| == 1 then parts[0]
    else parts[0] + sep + Join(parts[1..], sep)
  }

  lemma {:induction false} JoinSplit(s: string, c: char)
    ensures Join(SplitOn(s, c), [c]) == s
  {
    if s != "" {
      JoinSplit(s[1..], c);
      var rest := SplitOn(s[1..], c);
      if s[0] == c {
        assert ([""] + rest)[1..] == rest;
      } else {
        assert ([[s[0]] + rest[0]] + rest[1..])[1..] == rest[1..];
      }
    }
  }

  lemma {:induction false} SplitFirst(p: string, rest: string, c: char)
    requires c !in p
    ensures SplitOn(p, c) == [p]
    ensures SplitOn(p + [c] + rest, c) == [p] + SplitOn(rest, c)
  {
    if p == "" {
      assert p + [c] + rest == [c] + rest && ([c] + rest)[1..] == rest;
    } else {
      SplitFirst(p[1..], rest, c);
      assert (p + [c] + rest)[1..] == p[1..] + [c] + rest;
      assert [p[0]] + p[1..] == p;
    }
  }

  /** Splitting undoes joining when no part contains the separator. */
  lemma {:induction false} SplitJoin(parts: seq<string>, c: char)
    requires parts != [] && forall p | p in parts :: c !in p
    ensures SplitOn(Join(parts, [c]), c) == parts
  {
    SplitFirst(parts[0], Join(parts[1..], [c]), c);
    if |parts| > 1 {
      SplitJoin(parts[1..], c);
      assert parts == [parts[0]] + parts[1..];
    } else {
      assert parts == [parts[0]];
    }
  }

  function DropEmptyFront(parts: seq<string>): (r: seq<string>)
    ensures |r| <= |parts| && r == parts[|parts| - |r|..]
    ensures r != [] ==> r[0] != ""
  {
    if parts != [] && parts[0] == "" then DropEmptyFront(parts[1..]) else parts
  }

  function DropEmptyBack(parts: seq<string>): (r: seq<string>)
    ensures r <= parts
    ensures r != [] ==> r[|r| - 1] != ""
  {
    if parts != [] && parts[|parts| - 1] == "" then DropEmptyBack(parts[..|parts| - 1]) else parts
  }

  function DropEmptyEnds(parts: seq<string>): (r: seq<string>)
    ensures r != [] ==> r[|r| - 1] != ""
    ensures forall p | p in r :: p in parts
  {
    DropEmptyBack(DropEmptyFront(parts))
  }

  lemma {:induction false} EndsDropped(parts: seq<string>)
    requires parts != [] ==> parts[0] != ""
    ensures DropEmptyBack(parts) != [] ==> DropEmptyBack(parts)[0] != ""
  {
    if parts != [] && parts[|parts| - 1] == "" { EndsDropped(parts[..|parts| - 1]); }
  }

  lemma DropTwice(parts: seq<string>)
    ensures DropEmptyEnds(DropEmptyEnds(parts)) == DropEmptyEnds(parts)
  {
    EndsDropped(DropEmptyFront(parts));
  }

  lemma {:induction false} JoinLast(parts: seq<string>, last: string, sep: string)
    requires parts != []
    ensures Join(parts + [last], sep) == Join(parts, sep) + sep + last
  {
    if |parts| == 1 {
      assert (parts + [last])[1..] == [last];
    } else {
      JoinLast(parts[1..], last, sep);
      assert (parts + [last])[1..] == parts[1..] + [last];
    }
  }

  lemma {:induction false} TrimStartOver(blank: string, s: string)
    requires AllSpace(blank)
    ensures TrimStart(blank + s) == TrimStart(s)
  {
    if blank == "" {
      assert blank + s == s;
    } else {
      assert blank[0] in blank;
      assert (blank + s)[1..] == blank[1..] + s;
      TrimStartOver(blank[1..], s);
    }
  }

  lemma {:induction false} TrimEndOver(s: string, blank: string)
    requires AllSpace(blank)
    ensures TrimEnd(s + blank) == TrimEnd(s)
  {
    if blank == "" {
      assert s + blank == s;
    } else {
      var n := |blank| - 1;
      assert blank[n] in blank;
      assert (s + blank)[..|s + blank| - 1] == s + blank[..n];
      TrimEndOver(s, blank[..n]);
    }
  }

  lemma JoinFirst(parts: seq<string>, sep: string)
    requires parts != [] && parts[0] != ""
    ensures Join(parts, sep) != "" && Join(parts, sep)[0] == parts[0][0]
  {
  }

  predicate AllTrimmed(parts: seq<string>) {
    forall p | p in parts :: Trimmed(p)
  }

  lemma FirstKept(parts: seq<string>, sep: string)
    requires parts != [] && parts[0] != "" && Trimmed(parts[0])
    ensures TrimStart(Join(parts, sep)) == Join(parts, sep)
  {
    JoinFirst(parts, sep);
  }

  lemma FirstSkipped(parts: seq<string>, sep: string)
    requires AllSpace(sep) && |parts| > 1 && parts[0] == ""
    ensures TrimStart(Join(parts, sep)) == TrimStart(Join(parts[1..], sep))
  {
    var rest := Join(parts[1..], sep);
    assert Join(parts, sep) == sep + rest;
    TrimStartOver(sep, rest);
  }

  lemma {:induction false} TrimStartJoin(parts: seq<string>, sep: string)
    requires AllSpace(sep) && AllTrimmed(parts)
    ensures TrimStart(Join(parts, sep)) == Join(DropEmptyFront(parts), sep)
  {
    if parts == [] {
    } else if parts[0] != "" {
      assert parts[0] in parts && Trimmed(parts[0]);
      FirstKept(parts, sep);
    } else if |parts| == 1 {
      assert DropEmptyFront(parts) == DropEmptyFront(parts[1..]) == [];
    } else {
      FirstSkipped(parts, sep);
      TrimStartJoin(parts[1..], sep);
    }
  }

  lemma JoinEnd(parts: seq<string>, sep: string)
    requires parts != [] && parts[|parts| - 1] != ""
    ensures Join(parts, sep) != ""
    ensures Join(parts, sep)[|Join(parts, sep)| - 1] == parts[|parts| - 1][|parts[|parts| - 1]| - 1]
  {
    var front, last := parts[..|parts| - 1], parts[|parts| - 1];
    assert parts == front + [last];
    if front != [] { JoinLast(front, last, sep); }
  }

  lemma {:induction false} TrimEndJoin(parts: seq<string>, sep: string)
    requires AllSpace(sep) && AllTrimmed(parts)
    ensures TrimEnd(Join(parts, sep)) == Join(DropEmptyBack(parts), sep)
  {
    if parts != [] {
      var front, last := parts[..|parts| - 1], parts[|parts| - 1];
      assert Trimmed(last);
      if last != "" {
        JoinEnd(parts, sep);
      } else if front != [] {
        assert parts == front + [last];
        JoinLast(front, last, sep);
        assert Join(parts, sep) == Join(front, sep) + sep;
        TrimEndJoin(front, sep);
        TrimEndOver(Join(front, sep), sep);
      }
    }
  }

  /** Stripping a join of trimmed parts drops its empty parts at both ends, and nothing else. */
  lemma StripJoin(parts: seq<string>, sep: string)
    requires AllSpace(sep) && AllTrimmed(parts)
    ensures Strip(Join(parts, sep)) == Join(DropEmptyEnds(parts), sep)
  {
    TrimStartJoin(parts, sep);
    TrimEndJoin(DropEmptyFront(parts), sep);
  }

  /******* What is not white space *******/

  function Ink(s: string): string {
    if s == "" then "" else (if IsSpace(s[0]) then "" else [s[0]]) + Ink(s[1..])
  }

  lemma {:induction false} InkConcat(s: string, t: string)
    ensures Ink(s + t) == Ink(s) + Ink(t)
  {
    if s == "" {
      assert s + t == t;
    } else {
      InkConcat(s[1..], t);
      assert (s + t)[1..] == s[1..] + t && (s + t)[0] == s[0];
      var head := if IsSpace(s[0]) then "" else [s[0]];
      assert head + (Ink(s[1..]) + Ink(t)) == (head + Ink(s[1..])) + Ink(t);
    }
  }

  lemma {:induction false} InkOfSpace(s: string)
    requires AllSpace(s)
    ensures Ink(s) == ""
  {
    if s != "" {
      assert s[0] in s;
      InkOfSpace(s[1..]);
    }
  }

  lemma {:induction false} InkOfTrimStart(s: string)
    ensures Ink(TrimStart(s)) == Ink(s)
  {
    if s != "" && IsSpace(s[0]) { InkOfTrimStart(s[1..]); }
  }

  lemma {:induction false} InkOfTrimEnd(s: string)
    ensures Ink(TrimEnd(s)) == Ink(s)
  {
    if s != "" && IsSpace(s[|s| - 1]) {
      InkOfTrimEnd(s[..|s| - 1]);
      assert s == s[..|s| - 1] + [s[|s| - 1]];
      InkConcat(s[..|s| - 1], [s[|s| - 1]]);
      assert Ink([s[|s| - 1]]) == "";
    }
  }

  lemma InkOfStrip(s: string)
    ensures Ink(Strip(s)) == Ink(s)
  {
    InkOfTrimStart(s);
    InkOfTrimEnd(TrimStart(s));
  }

  function InkOfAll(parts: seq<string>): string {
    if parts == [] then "" else Ink(parts[0]) + InkOfAll(parts[1..])
  }

  lemma {:induction false} InkOfJoin(parts: seq<string>, sep: string)
    requires AllSpace(sep)
    ensures Ink(Join(parts, sep)) == InkOfAll(parts)
  {
    if |parts| == 1 {
      assert InkOfAll(parts[1..]) == "";
    } else if parts != [] {
      InkOfJoin(parts[1..], sep);
      InkOfSpace(sep);
      InkConcat(parts[0] + sep, Join(parts[1..], sep));
      InkConcat(parts[0], sep);
    }
  }

  lemma {:induction false} InkOfAllSame(a: seq<string>, b: seq<string>)
    requires |a| == |b| && forall i | 0 <= i < |a| :: Ink(a[i]) == Ink(b[i])
    ensures InkOfAll(a) == InkOfAll(b)
  {
    if a != [] { InkOfAllSame(a[1..], b[1..]); }
  }
}
