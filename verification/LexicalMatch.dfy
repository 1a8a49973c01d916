/** The conservative lexical matcher of the approved question bank.  A text is given by the words
    of its normalized form; scores are exact reals. */
module LexicalMatch {
  import opened Wrappers

  const MIN_SCORE := 0.80
  const AMBIGUITY_MARGIN := 0.15

  datatype Text = Text(revision: nat, words: seq<string>)

  const STOP_WORDS := {"a", "an", "and", "are", "be", "define", "definition", "describe", "do", "explain", "for", "give",
                       "how", "in", "is", "it", "of", "state", "the", "to", "what", "which", "why", "with", "write"}

  /******* Tokens *******/

  predicate EndsWith(s: string, suffix: string) {
    |suffix| <= |s| && s[|s| - |suffix|..] == suffix
  }

  // Only ordinary English plurals are folded.
  function Stem(token: string): string {
    if |token| > 4 && EndsWith(token, "ies") then token[..|token| - 3] + "y"
    else if |token| > 3 && EndsWith(token, "s") && !EndsWith(token, "ss") then token[..|token| - 1]
    else token
  }

  /** Folding is idempotent: a folded word never ends in a single s again. */
  lemma StemIsIdempotent(token: string)
    ensures Stem(Stem(token)) == Stem(token)
  {
    var n := |token|;
    if n > 4 && EndsWith(token, "ies") {
      assert Stem(token)[n - 3] == 'y';
    } else if n > 3 && EndsWith(token, "s") && !EndsWith(token, "ss") {
      assert token[n - 2..] == [token[n - 2], token[n - 1]] && token[n - 1..] == [token[n - 1]];
      assert "ss" == ['s', 's'] && token[n - 2] != 's';
      assert Stem(token)[n - 2] == token[n - 2];
    }
  }

  function MeaningfulTokens(words: seq<string>): set<string> {
    set w | w in words && w !in STOP_WORDS && |w| > 1 :: Stem(w)
  }

  /******* Scores *******/

  function Score(q: set<string>, c: set<string>): real {
    if q == {} || c == {} then 0.0
    else
      var overlap := |q * c|;
      if overlap != (if |q| < |c| then |q| else |c|) then 0.0
      else overlap as real / (if |q| > |c| then |q| else |c|) as real
  }

  predicate Nested(q: set<string>, c: set<string>) {
    q <= c || c <= q
  }

  lemma OverlapIsAll(q: set<string>, c: set<string>)
    ensures |q * c| == |q| <==> q <= c
    ensures |q * c| <= |q|
  {
    assert q == q * c + (q - c);
    if |q * c| == |q| { assert q - c == {}; }
  }

  // The smaller of two non-empty sets is part of the larger one, or their score is zero.
  lemma NestedSizes(q: set<string>, c: set<string>)
    requires q != {} && c != {} && |q| <= |c|
    ensures |q * c| == |q| <==> Nested(q, c)
    ensures q <= c && |q| == |c| ==> q == c
    ensures 0.0 < |q| as real / |c| as real <= 1.0 && (|q| as real / |c| as real == 1.0 <==> |q| == |c|)
    ensures c <= q ==> q == c
  {
    OverlapIsAll(q, c);
    if q <= c { assert c == q + (c - q); }
    if c <= q { assert q == c + (q - c); }
    PartOfOne(|q|, |c|);
  }

  lemma PartOfOne(m: nat, n: nat)
    requires 0 < m <= n
    ensures 0.0 < m as real / n as real <= 1.0 && (m as real / n as real == 1.0 <==> m == n)
  {
  }

  /** A score is positive exactly when one of two non-empty token sets contains the other; it is
      then the ratio of their sizes, and one exactly when they are equal. */
  lemma ScoreExactly(q: set<string>, c: set<string>)
    ensures 0.0 <= Score(q, c) <= 1.0 && Score(q, c) == Score(c, q)
    ensures Score(q, c) > 0.0 <==> q != {} && c != {} && Nested(q, c)
    ensures q != {} && c != {} && q <= c ==> Score(q, c) == |q| as real / |c| as real
    ensures Score(q, c) == 1.0 <==> q != {} && q == c
  {
    OverlapIsAll(q, c);
    OverlapIsAll(c, q);
    assert q * c == c * q;
    if q != {} && c != {} {
      if |q| <= |c| { NestedSizes(q, c); } else { NestedSizes(c, q); }
    }
  }

  /******* What wins *******/

  function Scorer(question: seq<string>): Text -> real {
    (t: Text) => Score(MeaningfulTokens(question), MeaningfulTokens(t.words))
  }

  predicate IsBest(score: Text -> real, texts: seq<Text>, revision: nat, best: Option<real>) {
    && (best.Some? ==> exists t | t in texts :: t.revision == revision && score(t) == best.value)
    && (forall t | t in texts && t.revision == revision :: best.Some? && score(t) <= best.value)
  }

  // A revision's best score over all its texts.
  function Best(score: Text -> real, texts: seq<Text>, revision: nat): (best: Option<real>)
    ensures IsBest(score, texts, revision, best)
  {
    if texts == [] then None
    else
      var front, last := texts[..|texts| - 1], texts[|texts| - 1];
      assert texts == front + [last];
      var rest := Best(score, front, revision);
      if last.revision == revision && (rest.None? || score(last) > rest.value) then Some(score(last)) else rest
  }

  // Good enough, and clearly better than every other revision.
  ghost predicate Wins(score: Text -> real, texts: seq<Text>, revision: nat) {
    var best := Best(score, texts, revision);
    && best.Some? && best.value >= MIN_SCORE
    && forall other | other != revision :: Beats(score, texts, best.value, other)
  }

  predicate Beats(score: Text -> real, texts: seq<Text>, best: real, other: nat) {
    var theirs := Best(score, texts, other);
    theirs.Some? ==> best - theirs.value >= AMBIGUITY_MARGIN
  }

  lemma AtMostOneWins(score: Text -> real, texts: seq<Text>, a: nat, b: nat)
    requires Wins(score, texts, a) && Wins(score, texts, b)
    ensures a == b
  {
    var x, y := Best(score, texts, a).value, Best(score, texts, b).value;
    assert a != b ==> Beats(score, texts, x, b) && Beats(score, texts, y, a);
  }

  predicate SameTexts(texts: seq<Text>, others: seq<Text>) {
    (forall t | t in texts :: t in others) && (forall t | t in others :: t in texts)
  }

  lemma SameBest(score: Text -> real, texts: seq<Text>, others: seq<Text>, revision: nat)
    requires SameTexts(texts, others)
    ensures Best(score, texts, revision) == Best(score, others, revision)
  {
    assert IsBest(score, texts, revision, Best(score, texts, revision));
    assert IsBest(score, others, revision, Best(score, others, revision));
  }

  /** Who wins depends neither on the order nor on the repetition of the texts. */
  lemma OrderDoesNotMatter(score: Text -> real, texts: seq<Text>, others: seq<Text>, revision: nat)
    requires SameTexts(texts, others)
    ensures Wins(score, texts, revision) <==> Wins(score, others, revision)
  {
    forall r: nat ensures Best(score, texts, r) == Best(score, others, r) { SameBest(score, texts, others, r); }
    var best := Best(score, texts, revision);
    if best.Some? {
      forall other ensures Beats(score, texts, best.value, other) == Beats(score, others, best.value, other) {
        SameBest(score, texts, others, other);
      }
    }
  }

  /** A winner has a text whose tokens contain the question's or are contained in them, the
      smaller set having at least four fifths of the larger one's size. */
  lemma WinnerContains(question: seq<string>, texts: seq<Text>, revision: nat) returns (t: Text)
    requires Wins(Scorer(question), texts, revision)
    ensures t in texts && t.revision == revision
    ensures var q, c := MeaningfulTokens(question), MeaningfulTokens(t.words);
            Nested(q, c) && q != {} && c != {} && 5 * |q| >= 4 * |c| && 5 * |c| >= 4 * |q|
  {
    var score := Scorer(question);
    var best := Best(score, texts, revision);
    assert IsBest(score, texts, revision, best);
    t :| t in texts && t.revision == revision && score(t) == best.value;
    var q, c := MeaningfulTokens(question), MeaningfulTokens(t.words);
    ScoreExactly(q, c);
    ScoreExactly(c, q);
    if q <= c { SizesAreClose(q, c); } else { SizesAreClose(c, q); }
  }

  lemma AtLeastFourFifths(ratio: real, m: real)
    requires ratio >= 0.8 && m >= 0.0
    ensures ratio * m >= 0.8 * m
  {
    assert ratio * m - 0.8 * m == (ratio - 0.8) * m;
  }

  lemma SizesAreClose(small: set<string>, large: set<string>)
    requires small <= large && small != {} && Score(small, large) >= MIN_SCORE
    ensures 5 * |small| >= 4 * |large| && |small| <= |large|
  {
    ScoreExactly(small, large);
    assert large == small + (large - small);
    assert |large| == |small| + |large - small|;
    FourFifths(|small|, |large|);
  }

  lemma FourFifths(n: nat, m: nat)
    requires m > 0 && n as real / m as real >= 0.8
    ensures 5 * n >= 4 * m
  {
    var x, y := n as real, m as real;
    AtLeastFourFifths(x / y, y);
    assert x / y * y == x;
    assert 5.0 * x >= 4.0 * y;
    assert (5 * n) as real >= (4 * m) as real;
  }

  /******* The selection *******/

  datatype Ranked = Ranked(score: real, revision: nat)

  method BestByRevision(score: Text -> real, texts: seq<Text>) returns (best: map<nat, real>)
    ensures forall r: nat :: Best(score, texts, r) == if r in best then Some(best[r]) else None
  {
    best := map[];
    var i := 0;
    while i < |texts|
      invariant i <= |texts|
      invariant forall r: nat :: Best(score, texts[..i], r) == if r in best then Some(best[r]) else None
    {
      assert texts[..i + 1][..i] == texts[..i];
      var t := texts[i];
      var score := score(t);
      if t.revision !in best || score > best[t.revision] {
        best := best[t.revision := score];
      }
      i := i + 1;
    }
    assert texts[..i] == texts;
  }

  predicate Descending(ranked: seq<Ranked>) {
    forall i, j | 0 <= i < j < |ranked| :: ranked[i].score >= ranked[j].score && ranked[i].revision != ranked[j].revision
  }

  function Revisions(ranked: seq<Ranked>): set<nat> {
    set y | y in ranked :: y.revision
  }

  method Insert(ranked: seq<Ranked>, x: Ranked) returns (r: seq<Ranked>)
    requires Descending(ranked) && x.revision !in Revisions(ranked)
    ensures Descending(r) && forall y :: y in r <==> y == x || y in ranked
  {
    var at := 0;
    while at < |ranked| && ranked[at].score >= x.score
      invariant at <= |ranked| && forall i | 0 <= i < at :: ranked[i].score >= x.score
    {
      at := at + 1;
    }
    forall i | 0 <= i < |ranked| ensures ranked[i].revision != x.revision { assert ranked[i] in ranked; }
    InsertedAt(ranked, x, at);
    r := ranked[..at] + [x] + ranked[at..];
  }

  lemma InsertedAt(ranked: seq<Ranked>, x: Ranked, at: nat)
    requires Descending(ranked) && at <= |ranked| && forall i | 0 <= i < |ranked| :: ranked[i].revision != x.revision
    requires forall i | 0 <= i < at :: ranked[i].score >= x.score
    requires forall i | at <= i < |ranked| :: ranked[i].score <= x.score
    ensures var r := ranked[..at] + [x] + ranked[at..];
            Descending(r) && forall y :: y in r <==> y == x || y in ranked
  {
    assert ranked == ranked[..at] + ranked[at..];
  }

  predicate Lists(best: map<nat, real>, ranked: seq<Ranked>) {
    && (forall y | y in ranked :: y.revision in best && best[y.revision] == y.score)
    && (forall r | r in best :: Ranked(best[r], r) in ranked)
  }

  method RankAll(best: map<nat, real>) returns (ranked: seq<Ranked>)
    ensures Descending(ranked) && Lists(best, ranked)
  {
    ranked := [];
    var rest := best.Keys;
    while rest != {}
      invariant rest <= best.Keys && Descending(ranked)
      invariant forall y | y in ranked :: y.revision in best.Keys - rest && best[y.revision] == y.score
      invariant forall r | r in best.Keys - rest :: Ranked(best[r], r) in ranked
      decreases |rest|
    {
      var r :| r in rest;
      rest := rest - {r};
      ranked := Insert(ranked, Ranked(best[r], r));
    }
  }

  /** Returns a revision exactly when it wins, and none when no revision does. */
  method SelectLexicalMatch(question: seq<string>, texts: seq<Text>) returns (matching: Option<nat>)
    ensures forall r: nat :: matching == Some(r) <==> Wins(Scorer(question), texts, r)
  {
    var score := Scorer(question);
    var best := BestByRevision(score, texts);
    var ranked := RankAll(best);
    Decided(score, texts, best, ranked);
    if ranked == [] || ranked[0].score < MIN_SCORE {
      return None;
    }
    if |ranked| > 1 && ranked[0].score - ranked[1].score < AMBIGUITY_MARGIN {
      return None;
    }
    matching := Some(ranked[0].revision);
  }

  predicate TopIsClear(ranked: seq<Ranked>) {
    && ranked != [] && ranked[0].score >= MIN_SCORE
    && (|ranked| > 1 ==> ranked[0].score - ranked[1].score >= AMBIGUITY_MARGIN)
  }

  lemma Decided(score: Text -> real, texts: seq<Text>, best: map<nat, real>, ranked: seq<Ranked>)
    requires Descending(ranked) && Lists(best, ranked)
    requires forall r: nat :: Best(score, texts, r) == if r in best then Some(best[r]) else None
    ensures forall r: nat :: Wins(score, texts, r) <==> TopIsClear(ranked) && r == ranked[0].revision
  {
    if TopIsClear(ranked) { ClearTopWins(score, texts, best, ranked); }
    forall r: nat | Wins(score, texts, r) ensures TopIsClear(ranked) && r == ranked[0].revision {
      WinnerIsTop(score, texts, best, ranked, r);
    }
  }

  lemma ClearTopWins(score: Text -> real, texts: seq<Text>, best: map<nat, real>, ranked: seq<Ranked>)
    requires Descending(ranked) && Lists(best, ranked) && TopIsClear(ranked)
    requires forall r: nat :: Best(score, texts, r) == if r in best then Some(best[r]) else None
    ensures Wins(score, texts, ranked[0].revision)
  {
    assert ranked[0] in ranked;
    forall other | other != ranked[0].revision && other in best
      ensures ranked[0].score - best[other] >= AMBIGUITY_MARGIN
    {
      var i :| 0 <= i < |ranked| && ranked[i] == Ranked(best[other], other);
      assert i > 1 ==> ranked[1].score >= ranked[i].score;
    }
  }

  lemma WinnerIsTop(score: Text -> real, texts: seq<Text>, best: map<nat, real>, ranked: seq<Ranked>, r: nat)
    requires Descending(ranked) && Lists(best, ranked) && Wins(score, texts, r)
    requires forall q: nat :: Best(score, texts, q) == if q in best then Some(best[q]) else None
    ensures TopIsClear(ranked) && r == ranked[0].revision
  {
    assert r in best && Ranked(best[r], r) in ranked && ranked[0] in ranked;
    var top := ranked[0].revision;
    var i :| 0 <= i < |ranked| && ranked[i] == Ranked(best[r], r);
    assert ranked[0].score >= best[r];
    assert top != r ==> Beats(score, texts, best[r], top);
    if |ranked| > 1 {
      assert ranked[1] in ranked && ranked[1].revision != ranked[0].revision;
      assert ranked[1].revision != r ==> Beats(score, texts, best[r], ranked[1].revision);
    }
  }
}
