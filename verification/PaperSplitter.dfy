/** Splitting a printed paper into its questions: inline joins, candidates, and the pass that
    attaches subparts to their group.  Every regular expression is an arbitrary function. */
module PaperSplitter {
  import opened Wrappers
  import opened Text

  datatype Kind = Arabic | Roman | Lettered
  datatype Mode = ShortMode | LongMode | McqMode
  datatype Marker = Marker(kind: Kind, name: string, text: string)

  datatype Grammar = Grammar(
    start: string -> Option<Marker>,   // _start
    groupCue: seq<string> -> bool,     // _GROUP_CUES on the joined lines
    context: seq<string> -> string,    // the joined lines, stripped
    lower: string -> string)

  datatype Candidate = Candidate(page: nat, kind: Kind, name: string, lines: seq<string>,
                                 section: Option<string>, mode: Option<Mode>)

  /******* Inline joins *******/

  predicate CutAt(g: Grammar, s: string, i: nat) {
    0 < i < |s| && IsSpace(s[i - 1]) && !IsSpace(s[i]) && g.start(s[i..]).Some?
  }

  function NextStart(g: Grammar, s: string, from: nat): (at: Option<nat>)
    ensures at.Some? ==> from <= at.value && CutAt(g, s, at.value) && forall j | from <= j < at.value :: !CutAt(g, s, j)
    ensures at.None? ==> forall j | from <= j < |s| :: !CutAt(g, s, j)
    decreases |s| - from
  {
    if from >= |s| then None
    else if CutAt(g, s, from) then Some(from)
    else NextStart(g, s, from + 1)
  }

  function Split(g: Grammar, s: string): seq<string>
    decreases |s|
  {
    if s == "" then []
    else
      var at := NextStart(g, s, 1);
      if g.start(s).None? || at.None? then [s]
      else [TrimEnd(s[..at.value])] + Split(g, s[at.value..])
  }

  // The white space that each cut drops.
  function Gaps(g: Grammar, s: string): seq<string>
    decreases |s|
  {
    if s == "" then []
    else
      var at := NextStart(g, s, 1);
      if g.start(s).None? || at.None? then [""]
      else [s[|TrimEnd(s[..at.value])|..at.value]] + Gaps(g, s[at.value..])
  }

  function Weave(pieces: seq<string>, gaps: seq<string>): string
    requires |pieces| == |gaps|
  {
    if pieces == [] then "" else pieces[0] + gaps[0] + Weave(pieces[1..], gaps[1..])
  }

  lemma {:induction false} TrimEndDropsSpace(s: string)
    ensures AllSpace(s[|TrimEnd(s)|..])
  {
    if s != "" && IsSpace(s[|s| - 1]) {
      TrimEndDropsSpace(s[..|s| - 1]);
      assert s[|TrimEnd(s)|..] == s[..|s| - 1][|TrimEnd(s)|..] + [s[|s| - 1]];
    }
  }

  /** For any notion of a marker the pieces rejoin to the line: only white space is dropped, all of
      it directly before a cut. */
  lemma {:induction false} PiecesRejoin(g: Grammar, s: string)
    ensures |Split(g, s)| == |Gaps(g, s)|
    ensures Weave(Split(g, s), Gaps(g, s)) == s
    ensures forall gap | gap in Gaps(g, s) :: AllSpace(gap)
    decreases |s|
  {
    var at := NextStart(g, s, 1);
    if s != "" && g.start(s).Some? && at.Some? {
      var front, back := s[..at.value], s[at.value..];
      PiecesRejoin(g, back);
      TrimEndDropsSpace(front);
      var piece, gap := TrimEnd(front), front[|TrimEnd(front)|..];
      assert gap == s[|piece|..at.value] && front == piece + gap && s == front + back;
      assert ([piece] + Split(g, back))[1..] == Split(g, back);
      assert ([gap] + Gaps(g, back))[1..] == Gaps(g, back);
    } else if s != "" {
      assert Weave([s][1..], [""][1..]) == "";
    }
  }

  // The text from the k-th piece on.
  function From(g: Grammar, s: string, k: nat): string
    requires |Split(g, s)| == |Gaps(g, s)| && k <= |Split(g, s)|
  {
    Weave(Split(g, s)[k..], Gaps(g, s)[k..])
  }

  // No marker is left inside the k-th piece or the white space after it.
  predicate Uncut(g: Grammar, s: string, k: nat)
    requires |Split(g, s)| == |Gaps(g, s)| && k < |Split(g, s)|
  {
    forall j | 0 <= j < |Split(g, s)[k]| + |Gaps(g, s)[k]| && j <= |From(g, s, k)| :: !CutAt(g, From(g, s, k), j)
  }

  lemma FirstPiece(g: Grammar, s: string)
    requires s != "" && g.start(s).Some?
    ensures |Split(g, s)| == |Gaps(g, s)| > 0 && From(g, s, 0) == s && Uncut(g, s, 0)
  {
    PiecesRejoin(g, s);
    assert Split(g, s)[0..] == Split(g, s) && Gaps(g, s)[0..] == Gaps(g, s);
  }

  lemma LaterPiece(g: Grammar, s: string, k: nat)
    requires 0 < k < |Split(g, s)|
    ensures var at := NextStart(g, s, 1);
            && g.start(s).Some? && at.Some?
            && |Split(g, s)| == |Gaps(g, s)| && k - 1 < |Split(g, s[at.value..])| == |Gaps(g, s[at.value..])|
            && Split(g, s)[k] == Split(g, s[at.value..])[k - 1] && Gaps(g, s)[k] == Gaps(g, s[at.value..])[k - 1]
            && From(g, s, k) == From(g, s[at.value..], k - 1)
  {
    PiecesRejoin(g, s);
    var back := s[NextStart(g, s, 1).value..];
    PiecesRejoin(g, back);
    assert Split(g, s)[k..] == Split(g, back)[k - 1..] && Gaps(g, s)[k..] == Gaps(g, back)[k - 1..];
  }

  lemma UncutCarries(g: Grammar, s: string, back: string, k: nat)
    requires 0 < k < |Split(g, s)| == |Gaps(g, s)| && k - 1 < |Split(g, back)| == |Gaps(g, back)|
    requires Split(g, s)[k] == Split(g, back)[k - 1] && Gaps(g, s)[k] == Gaps(g, back)[k - 1] && From(g, s, k) == From(g, back, k - 1)
    requires Uncut(g, back, k - 1)
    ensures Uncut(g, s, k)
  {
  }

  /** Every piece after the first begins at a marker, and no marker is left inside a piece: a line
      that starts with a marker is cut exactly at the markers that follow white space, and any
      other line is not cut at all. */
  lemma {:induction false} CutExactlyAtMarkers(g: Grammar, s: string, k: nat)
    requires k < |Split(g, s)|
    ensures |Split(g, s)| == |Gaps(g, s)|
    ensures k > 0 ==> g.start(From(g, s, k)).Some?
    ensures g.start(s).Some? ==> Uncut(g, s, k)
    ensures g.start(s).None? ==> Split(g, s) == [s]
    decreases |s|
  {
    PiecesRejoin(g, s);
    if g.start(s).Some? {
      if k == 0 {
        FirstPiece(g, s);
      } else {
        LaterPiece(g, s, k);
        var back := s[NextStart(g, s, 1).value..];
        FirstPiece(g, back);
        CutExactlyAtMarkers(g, back, k - 1);
        UncutCarries(g, s, back, k);
      }
    }
  }

  /** _split_inline_starts */
  method SplitInlineStarts(g: Grammar, line: string) returns (pieces: seq<string>)
    ensures pieces == Split(g, line)
  {
    pieces := [];
    var remainder := line;
    while remainder != ""
      invariant pieces + Split(g, remainder) == Split(g, line)
      decreases |remainder|
    {
      if g.start(remainder).None? {
        pieces := pieces + [remainder];
        return;
      }
      var next: Option<nat> := None;
      var index := 1;
      while index < |remainder| && next.None?
        invariant 1 <= index
        invariant next.None? ==> forall j | 1 <= j < index :: !CutAt(g, remainder, j)
        invariant next.Some? ==> next == NextStart(g, remainder, 1)
        decreases |remainder| - index, next.None?
      {
        if IsSpace(remainder[index - 1]) && !IsSpace(remainder[index]) && g.start(remainder[index..]).Some? {
          assert CutAt(g, remainder, index);
          next := Some(index);
        } else {
          index := index + 1;
        }
      }
      if next.None? {
        pieces := pieces + [remainder];
        return;
      }
      pieces := pieces + [TrimEnd(remainder[..next.value])];
      remainder := remainder[next.value..];
    }
  }

  /******* Groups *******/

  predicate HasGroupCue(g: Grammar, c: Candidate) {
    c.kind.Arabic? && g.groupCue(c.lines)
  }

  // A numbered question announcing parts, directly followed by one.
  predicate IsContainer(g: Grammar, cs: seq<Candidate>, i: nat) {
    i + 1 < |cs| && HasGroupCue(g, cs[i]) && !cs[i + 1].kind.Arabic?
  }

  /** The look-ahead loop never looks past the next candidate. */
  method LooksAhead(g: Grammar, cs: seq<Candidate>, index: nat) returns (container: bool)
    requires index < |cs|
    ensures container == IsContainer(g, cs, index)
  {
    if cs[index].kind != Arabic || !g.groupCue(cs[index].lines) {
      return false;
    }
    var k, decided := index + 1, false;
    container := false;
    while k < |cs| && !decided
      invariant decided ==> container == IsContainer(g, cs, index)
      invariant !decided ==> k == index + 1 && !container
      decreases |cs| - k
    {
      if cs[k].kind == Arabic {
        decided := true;
      } else if cs[k].kind == Roman || cs[k].kind == Lettered {
        container, decided := true, true;
      }
      k := k + 1;
    }
  }

  predicate StartsWithDigit(s: string) {
    s != "" && '0' <= s[0] <= '9'
  }

  // Numbered questions, and parts such as 5(a), end whatever group came before.
  predicate EndsGroup(c: Candidate) {
    c.kind.Arabic? || (c.kind.Lettered? && StartsWithDigit(c.name))
  }

  // The container that candidate `i` falls under.
  function GroupOf(g: Grammar, cs: seq<Candidate>, i: nat): (group: Option<nat>)
    requires i <= |cs|
    ensures group.Some? ==> group.value < i
  {
    if i == 0 then None
    else if IsContainer(g, cs, i - 1) then Some(i - 1)
    else if EndsGroup(cs[i - 1]) then None
    else GroupOf(g, cs, i - 1)
  }

  /** A candidate falls under a container exactly when that container is the last candidate before
      it that ends a group. */
  lemma {:induction false} GroupOfExactly(g: Grammar, cs: seq<Candidate>, i: nat, j: nat)
    requires i <= |cs|
    ensures GroupOf(g, cs, i) == Some(j) <==>
      j < i && IsContainer(g, cs, j) && forall k | j < k < i :: !EndsGroup(cs[k])
  {
    if i > 0 { GroupOfExactly(g, cs, i - 1, j); }
  }

  datatype Placed = Placed(candidate: Candidate, sourceOrder: nat, displayLabel: string, groupContext: Option<string>)

  const TOO_MANY_QUESTIONS := "MULTIPLE_ASK_TOO_MANY_QUESTIONS"

  datatype Group = NoGroup | InGroup(name: string, context: string)

  function GroupAt(g: Grammar, cs: seq<Candidate>, i: nat): Group
    requires i <= |cs|
  {
    var group := GroupOf(g, cs, i);
    if group.None? then NoGroup else InGroup(cs[group.value].name, g.context(cs[group.value].lines))
  }

  // A candidate under a group, as the n-th question of the paper.
  function PlacedIn(g: Grammar, c: Candidate, group: Group, n: nat): Placed {
    if EndsGroup(c) || group.NoGroup? then Placed(c, n, c.name, None)
    else Placed(c, n, if c.kind.Roman? && group.name != "" then group.name + "(" + g.lower(c.name) + ")" else c.name, Some(group.context))
  }

  // Where the specification puts candidate `i`: its group is looked up on its own.
  function Place(g: Grammar, cs: seq<Candidate>, i: nat, n: nat): Placed
    requires i < |cs|
  {
    PlacedIn(g, cs[i], GroupAt(g, cs, i), n)
  }

  // The questions: the candidates that are not containers, in order.
  function Visible(g: Grammar, cs: seq<Candidate>, n: nat): (r: seq<nat>)
    requires n <= |cs|
    ensures forall a | 0 <= a < |r| :: r[a] < n
  {
    if n == 0 then []
    else if IsContainer(g, cs, n - 1) then Visible(g, cs, n - 1)
    else Visible(g, cs, n - 1) + [n - 1]
  }

  /** Every candidate is a container or exactly one question, and questions keep their order. */
  lemma {:induction false} VisibleExactly(g: Grammar, cs: seq<Candidate>, n: nat)
    requires n <= |cs|
    ensures forall i: nat | i < n :: i in Visible(g, cs, n) <==> !IsContainer(g, cs, i)
    ensures forall a, b | 0 <= a < b < |Visible(g, cs, n)| :: Visible(g, cs, n)[a] < Visible(g, cs, n)[b]
  {
    if n > 0 { VisibleExactly(g, cs, n - 1); }
  }

  // The pass accepts a placing: every candidate is a container or exactly one question.
  predicate Places(g: Grammar, cs: seq<Candidate>, out: seq<Placed>) {
    var visible := Visible(g, cs, |cs|);
    |out| == |visible| && forall k | 0 <= k < |out| :: out[k] == Place(g, cs, visible[k], k)
  }

  function Placing(g: Grammar, cs: seq<Candidate>, n: nat): seq<Placed>
    requires n <= |cs|
  {
    if n == 0 then []
    else
      var rest := Placing(g, cs, n - 1);
      if IsContainer(g, cs, n - 1) then rest else rest + [Place(g, cs, n - 1, |rest|)]
  }

  lemma {:induction false} PlacingCount(g: Grammar, cs: seq<Candidate>, n: nat)
    requires n <= |cs|
    ensures |Placing(g, cs, n)| == |Visible(g, cs, n)|
  {
    if n > 0 { PlacingCount(g, cs, n - 1); }
  }

  lemma {:induction false} PlacingAt(g: Grammar, cs: seq<Candidate>, n: nat, k: nat)
    requires n <= |cs| && k < |Placing(g, cs, n)| == |Visible(g, cs, n)|
    ensures Placing(g, cs, n)[k] == Place(g, cs, Visible(g, cs, n)[k], k)
  {
    if n > 0 {
      PlacingCount(g, cs, n - 1);
      if k < |Placing(g, cs, n - 1)| { PlacingAt(g, cs, n - 1, k); }
    }
  }

  lemma PlacingPlaces(g: Grammar, cs: seq<Candidate>)
    ensures Places(g, cs, Placing(g, cs, |cs|))
  {
    PlacingCount(g, cs, |cs|);
    forall k: nat | k < |Placing(g, cs, |cs|)|
      ensures Placing(g, cs, |cs|)[k] == Place(g, cs, Visible(g, cs, |cs|)[k], k)
    {
      PlacingAt(g, cs, |cs|, k);
    }
  }

  lemma GroupNext(g: Grammar, cs: seq<Candidate>, i: nat)
    requires i < |cs|
    ensures GroupAt(g, cs, i + 1) == if IsContainer(g, cs, i) then InGroup(cs[i].name, g.context(cs[i].lines))
                                     else if EndsGroup(cs[i]) then NoGroup else GroupAt(g, cs, i)
  {
  }

  method PlaceOne(g: Grammar, c: Candidate, group: Group, n: nat) returns (placed: Placed, after: Group)
    ensures placed == PlacedIn(g, c, group, n)
    ensures after == if EndsGroup(c) then NoGroup else group
  {
    after := group;
    if c.kind == Arabic || (c.kind == Lettered && StartsWithDigit(c.name)) {
      after := NoGroup;
      placed := Placed(c, n, c.name, None);
    } else if c.kind == Roman && group != NoGroup && group.name != "" {
      placed := Placed(c, n, group.name + "(" + g.lower(c.name) + ")", Some(group.context));
    } else {
      placed := Placed(c, n, c.name, if group == NoGroup then None else Some(group.context));
    }
  }

  /** The grouping pass: one loop over the candidates with the current group, against the
      specification that looks each candidate's group up on its own. */
  method GroupCandidates(g: Grammar, cs: seq<Candidate>, maxQuestions: nat) returns (r: Result<seq<Placed>>)
    ensures r.Failure? <==> |Visible(g, cs, |cs|)| > maxQuestions
    ensures r.Success? ==> Places(g, cs, r.value)
  {
    var out: seq<Placed> := [];
    var group := NoGroup;
    var i := 0;
    while i < |cs|
      invariant i <= |cs| && group == GroupAt(g, cs, i) && out == Placing(g, cs, i)
    {
      var container := LooksAhead(g, cs, i);
      GroupNext(g, cs, i);
      if container {
        group := InGroup(cs[i].name, g.context(cs[i].lines));
      } else {
        var placed;
        placed, group := PlaceOne(g, cs[i], group, |out|);
        out := out + [placed];
      }
      i := i + 1;
    }
    PlacingPlaces(g, cs);
    r := if |out| > maxQuestions then Failure(TOO_MANY_QUESTIONS) else Success(out);
  }

  /** What a placing means for one question: it has its own place in the order, and a Roman part
      carries a group's context exactly when the last candidate before it that ends a group is a
      container, whose label then prefixes its own. */
  lemma PlacingExactly(g: Grammar, cs: seq<Candidate>, out: seq<Placed>, k: nat)
    requires Places(g, cs, out) && k < |out|
    ensures var i := Visible(g, cs, |cs|)[k];
            && out[k].candidate == cs[i] && out[k].sourceOrder == k
            && (cs[i].kind.Roman? ==>
                  (out[k].groupContext.Some? <==> exists j :: 0 <= j < i && IsContainer(g, cs, j) && NoneEndsGroup(cs, j, i)))
            && (cs[i].kind.Roman? && out[k].groupContext.Some? ==>
                  var j := GroupOf(g, cs, i).value;
                  out[k].groupContext == Some(g.context(cs[j].lines))
                  && (cs[j].name != "" ==> out[k].displayLabel == cs[j].name + "(" + g.lower(cs[i].name) + ")"))
            && (EndsGroup(cs[i]) ==> out[k].displayLabel == cs[i].name && out[k].groupContext.None?)
  {
    var i := Visible(g, cs, |cs|)[k];
    forall j: nat ensures GroupOf(g, cs, i) == Some(j) <==> j < i && IsContainer(g, cs, j) && NoneEndsGroup(cs, j, i) {
      GroupOfExactly(g, cs, i, j);
    }
  }

  predicate NoneEndsGroup(cs: seq<Candidate>, j: int, i: int)
    requires 0 <= j < i <= |cs|
  {
    forall k | j < k < i :: !EndsGroup(cs[k])
  }
}
