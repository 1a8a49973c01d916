/** Reciprocal-rank fusion of the retrieval channels, and the evidence rule that looks only at
    its first result.  Weights are exact reals; citation ids are any ordered ids. */
module Fusion {
  import opened Wrappers
  import opened Sequences

  const RRF_K: nat := 60

  // In the order of their names.
  datatype Channel = Dense | ExpectedQuestion | Lexical
  datatype Citation = Citation(id: nat, content: string)
  datatype Hit = Hit(citation: Citation, channel: Channel, rank: int)
  datatype Contribution = Contribution(channel: Channel, rank: nat)
  datatype Evidence = Evidence(citation: Citation, fusedRank: nat, contributions: seq<Contribution>)

  predicate RanksPositive(hits: seq<Hit>) {
    forall h | h in hits :: h.rank >= 1
  }

  function Ids(hits: seq<Hit>): set<nat> {
    set h | h in hits :: h.citation.id
  }

  /******* What a citation is worth *******/

  // The best rank of a citation in a channel.
  predicate IsBest(hits: seq<Hit>, id: nat, channel: Channel, best: Option<nat>) {
    && (best.Some? ==> exists h | h in hits :: h.citation.id == id && h.channel == channel && h.rank == best.value)
    && (forall h | h in hits && h.citation.id == id && h.channel == channel :: best.Some? && best.value <= h.rank)
  }

  // The earliest of the best hits of a citation in a channel.
  function BestHit(hits: seq<Hit>, id: nat, channel: Channel): (best: Option<Hit>)
    ensures best.Some? ==> best.value in hits && best.value.citation.id == id && best.value.channel == channel
    ensures forall h | h in hits && h.citation.id == id && h.channel == channel :: best.Some? && best.value.rank <= h.rank
  {
    if hits == [] then None
    else
      var front, last := hits[..|hits| - 1], hits[|hits| - 1];
      assert hits == front + [last];
      var rest := BestHit(front, id, channel);
      if last.citation.id == id && last.channel == channel && (rest.None? || last.rank < rest.value.rank)
      then Some(last) else rest
  }

  function Best(hits: seq<Hit>, id: nat, channel: Channel): (best: Option<nat>)
    requires RanksPositive(hits)
    ensures IsBest(hits, id, channel, best)
  {
    var best := BestHit(hits, id, channel);
    if best.None? then None else Some(best.value.rank)
  }

  function FirstHit(hits: seq<Hit>, id: nat): (first: Option<Hit>)
    ensures first.Some? ==> first.value in hits && first.value.citation.id == id
    ensures first.None? <==> id !in Ids(hits)
  {
    if hits == [] then None
    else
      var front, last := hits[..|hits| - 1], hits[|hits| - 1];
      assert hits == front + [last];
      var first := FirstHit(front, id);
      if first.Some? then first else if last.citation.id == id then Some(last) else None
  }

  // Of hits that disagree about a citation, the one shown is the best of the channel seen first.
  function Shown(hits: seq<Hit>, id: nat): Option<Citation> {
    var first := FirstHit(hits, id);
    if first.None? then None
    else
      var best := BestHit(hits, id, first.value.channel);
      if best.None? then None else Some(best.value.citation)
  }

  function FromChannel(channel: Channel, best: Option<nat>): seq<Contribution> {
    if best.None? then [] else [Contribution(channel, best.value)]
  }

  function Contributions(hits: seq<Hit>, id: nat): seq<Contribution>
    requires RanksPositive(hits)
  {
    FromChannel(Dense, Best(hits, id, Dense)) + FromChannel(ExpectedQuestion, Best(hits, id, ExpectedQuestion))
    + FromChannel(Lexical, Best(hits, id, Lexical))
  }

  function Share(k: nat, rank: nat): real
    requires k >= 1
  {
    1.0 / ((k + rank) as real)
  }

  function Weight(cs: seq<Contribution>, k: nat): real
    requires k >= 1
  {
    if cs == [] then 0.0 else Weight(cs[..|cs| - 1], k) + Share(k, cs[|cs| - 1].rank)
  }

  function WeightOf(hits: seq<Hit>, k: nat, id: nat): real
    requires RanksPositive(hits) && k >= 1
  {
    Weight(Contributions(hits, id), k)
  }

  // Heavier first, then the smaller id.
  predicate Precedes(hits: seq<Hit>, k: nat, a: nat, b: nat)
    requires RanksPositive(hits) && k >= 1
  {
    WeightOf(hits, k, a) > WeightOf(hits, k, b) || (WeightOf(hits, k, a) == WeightOf(hits, k, b) && a < b)
  }

  /******* What the fused list is *******/

  function IdsOf(out: seq<Evidence>): set<nat> {
    set e | e in out :: e.citation.id
  }

  predicate FromHits(hits: seq<Hit>, citation: Citation) {
    exists h | h in hits :: h.citation == citation
  }

  predicate IsFusion(hits: seq<Hit>, k: nat, out: seq<Evidence>)
    requires RanksPositive(hits) && k >= 1
  {
    && IdsOf(out) == Ids(hits)
    && (forall i | 0 <= i < |out| ::
          && out[i].fusedRank == i + 1
          && out[i].contributions == Contributions(hits, out[i].citation.id)
          && FromHits(hits, out[i].citation))
    && (forall i, j | 0 <= i < j < |out| :: Precedes(hits, k, out[i].citation.id, out[j].citation.id))
  }

  // A citation id always comes with the same citation.
  predicate CitationsAgree(hits: seq<Hit>) {
    forall h, g | h in hits && g in hits && h.citation.id == g.citation.id :: h.citation == g.citation
  }

  predicate SameHits(hits: seq<Hit>, others: seq<Hit>) {
    (forall h | h in hits :: h in others) && (forall h | h in others :: h in hits)
  }

  lemma SameBest(hits: seq<Hit>, others: seq<Hit>, id: nat, channel: Channel)
    requires RanksPositive(hits) && RanksPositive(others) && SameHits(hits, others)
    ensures Best(hits, id, channel) == Best(others, id, channel)
  {
    var a, b := Best(hits, id, channel), Best(others, id, channel);
    assert IsBest(hits, id, channel, a) && IsBest(others, id, channel, b);
  }

  lemma BestDependsOnTheHitsAlone(hits: seq<Hit>, others: seq<Hit>, id: nat)
    requires RanksPositive(hits) && RanksPositive(others) && SameHits(hits, others)
    ensures Contributions(hits, id) == Contributions(others, id)
  {
    SameBest(hits, others, id, Dense);
    SameBest(hits, others, id, ExpectedQuestion);
    SameBest(hits, others, id, Lexical);
  }

  /******* One list and no other *******/

  // Strictly sorted by a strict order.
  ghost predicate SortedBy(ids: seq<nat>, before: (nat, nat) -> bool) {
    forall i, j | 0 <= i < j < |ids| :: before(ids[i], ids[j])
  }

  ghost predicate Strict(before: (nat, nat) -> bool) {
    forall a, b :: before(a, b) ==> !before(b, a)
  }

  lemma {:induction false} SortedIsUnique(a: seq<nat>, b: seq<nat>, before: (nat, nat) -> bool)
    requires Strict(before) && SortedBy(a, before) && SortedBy(b, before)
    requires forall x :: x in a <==> x in b
    ensures a == b
  {
    var first := if b == [] then 0 else b[0];
    assert b != [] ==> first in b;
    if a != [] {
      assert a[0] in a && a[0] in b && b[0] in a;
      assert a[0] == b[0];
      forall x ensures x in a[1..] <==> x in b[1..] {
        assert x in a <==> x == a[0] || x in a[1..];
        assert x in b <==> x == b[0] || x in b[1..];
        assert a[0] !in a[1..] && b[0] !in b[1..];
      }
      SortedIsUnique(a[1..], b[1..], before);
      assert a == [a[0]] + a[1..] && b == [b[0]] + b[1..];
    }
  }

  function OutIds(out: seq<Evidence>): (r: seq<nat>)
    ensures |r| == |out| && forall i | 0 <= i < |out| :: r[i] == out[i].citation.id
  {
    seq(|out|, i requires 0 <= i < |out| => out[i].citation.id)
  }

  function Order(hits: seq<Hit>, k: nat): (nat, nat) -> bool
    requires RanksPositive(hits) && k >= 1
  {
    (a: nat, b: nat) => Precedes(hits, k, a, b)
  }

  lemma SameOrder(hits: seq<Hit>, others: seq<Hit>, k: nat, a: nat, b: nat)
    requires RanksPositive(hits) && RanksPositive(others) && k >= 1 && SameHits(hits, others)
    ensures Precedes(hits, k, a, b) == Precedes(others, k, a, b)
  {
    BestDependsOnTheHitsAlone(hits, others, a);
    BestDependsOnTheHitsAlone(hits, others, b);
  }

  lemma OutIdsCover(hits: seq<Hit>, k: nat, out: seq<Evidence>, x: nat)
    requires RanksPositive(hits) && k >= 1 && IsFusion(hits, k, out)
    ensures x in OutIds(out) <==> x in Ids(hits)
  {
    if x in IdsOf(out) {
      var e :| e in out && e.citation.id == x;
      var i :| 0 <= i < |out| && out[i] == e;
      assert OutIds(out)[i] == x;
    }
  }

  /** The fused list depends on the set of hits alone: neither their order nor repetitions change
      ids, ranks or contributions; nor, when an id always names one citation, anything at all. */
  lemma FusionIgnoresOrder(hits: seq<Hit>, others: seq<Hit>, k: nat, out: seq<Evidence>, other: seq<Evidence>)
    requires RanksPositive(hits) && RanksPositive(others) && k >= 1 && SameHits(hits, others)
    requires IsFusion(hits, k, out) && IsFusion(others, k, other)
    ensures OutIds(out) == OutIds(other)
    ensures |out| == |other| && forall i | 0 <= i < |out| ::
              out[i].fusedRank == other[i].fusedRank && out[i].contributions == other[i].contributions
    ensures CitationsAgree(hits) ==> out == other
  {
    var a, b := OutIds(out), OutIds(other);
    forall x ensures x in a <==> x in b {
      OutIdsCover(hits, k, out, x);
      OutIdsCover(others, k, other, x);
      assert Ids(hits) == Ids(others);
    }
    forall i, j | 0 <= i < j < |b| ensures Precedes(hits, k, b[i], b[j]) { SameOrder(hits, others, k, b[i], b[j]); }
    SortedIsUnique(a, b, Order(hits, k));
    forall i | 0 <= i < |out|
      ensures out[i].fusedRank == other[i].fusedRank && out[i].contributions == other[i].contributions
      ensures CitationsAgree(hits) ==> out[i] == other[i]
    {
      assert a[i] == b[i];
      BestDependsOnTheHitsAlone(hits, others, a[i]);
    }
  }

  /******* Two channels beat one *******/

  lemma Sign(p: real, q: real)
    requires q > 0.0
    ensures p * q > 0.0 <==> p > 0.0
  {
    if p > 0.0 {
      assert p * q > 0.0;
    } else {
      assert -p * q >= 0.0;
    }
  }

  lemma ReciprocalFalls(x: real, y: real)
    requires 0.0 < x <= y
    ensures 1.0 / x >= 1.0 / y > 0.0
  {
    var s, t := 1.0 / x, 1.0 / y;
    assert s * x == 1.0 && t * y == 1.0;
    Sign(t, y);
    assert t * x <= 1.0 by {
      Sign(y - x, t);
      assert (y - x) * t == t * y - t * x;
    }
    assert (t - s) * x == t * x - s * x;
    Sign(t - s, x);
  }

  lemma ShareFalls(k: nat, a: nat, b: nat)
    requires k >= 1 && a <= b
    ensures Share(k, a) >= Share(k, b) > 0.0
  {
    ReciprocalFalls((k + a) as real, (k + b) as real);
  }

  lemma WorstPair(k: nat, m: nat)
    requires k >= 1 && m >= 1
    ensures Share(k, m) + Share(k, m) > Share(k, 1) <==> m < k + 2
  {
    var x, y := (k + m) as real, (k + 1) as real;
    var s, t := Share(k, m), Share(k, 1);
    assert s * x == 1.0 && t * y == 1.0;
    assert (s + s - t) * (x * y) == 2.0 * y - x by {
      assert (s + s - t) * (x * y) == (s * x) * y + (s * x) * y - (t * y) * x;
    }
    Sign(x, y);
    Sign(s + s - t, x * y);
  }

  // Ranks up to m make any two shares worth more than any one.
  ghost predicate PairsBeatSingles(k: nat, m: nat)
    requires k >= 1
  {
    forall a, b, c: nat | 1 <= a <= m && 1 <= b <= m && 1 <= c <= m :: Share(k, a) + Share(k, b) > Share(k, c)
  }

  /** Any two ranks up to m outweigh any one of them exactly when m is below k + 2: with the
      constant 60, up to rank 61, and the settings allow at most 50 candidates per channel. */
  lemma PairsBeatSinglesExactly(k: nat, m: nat)
    requires k >= 1 && m >= 1
    ensures PairsBeatSingles(k, m) <==> m < k + 2
  {
    WorstPair(k, m);
    if m < k + 2 {
      forall a, b, c: nat | 1 <= a <= m && 1 <= b <= m && 1 <= c <= m
        ensures Share(k, a) + Share(k, b) > Share(k, c)
      {
        ShareFalls(k, a, m);
        ShareFalls(k, b, m);
        ShareFalls(k, 1, c);
      }
    }
  }

  lemma ContributionRanks(hits: seq<Hit>, id: nat, m: nat)
    requires RanksPositive(hits) && forall h | h in hits :: h.rank <= m
    ensures forall c | c in Contributions(hits, id) :: 1 <= c.rank <= m
  {
    forall channel | Best(hits, id, channel).Some? ensures 1 <= Best(hits, id, channel).value <= m {
      assert IsBest(hits, id, channel, Best(hits, id, channel));
    }
  }

  lemma MultiWeighsMore(cs: seq<Contribution>, single: seq<Contribution>, k: nat, m: nat)
    requires k >= 1 && 1 <= m < k + 2 && 2 <= |cs| && |single| == 1
    requires forall c | c in cs :: 1 <= c.rank <= m
    requires forall c | c in single :: 1 <= c.rank <= m
    ensures Weight(cs, k) > Weight(single, k)
  {
    PairsBeatSinglesExactly(k, m);
    assert single[0] in single && cs[0] in cs && cs[1] in cs;
    assert Weight(single, k) == Share(k, single[0].rank);
    AtLeastTheFirstTwo(cs, k);
  }

  lemma {:induction false} AtLeastTheFirstTwo(cs: seq<Contribution>, k: nat)
    requires k >= 1 && 2 <= |cs|
    ensures Weight(cs, k) >= Share(k, cs[0].rank) + Share(k, cs[1].rank)
  {
    var front, last := cs[..|cs| - 1], cs[|cs| - 1];
    ShareFalls(k, last.rank, last.rank);
    if |cs| == 2 {
      assert front == [cs[0]] && Weight(front, k) == Weight(front[..0], k) + Share(k, cs[0].rank);
    } else {
      AtLeastTheFirstTwo(front, k);
    }
  }

  predicate MultiChannel(e: Evidence) {
    |e.contributions| >= 2
  }

  /** With ranks up to k + 1, every citation found by several channels comes before every
      citation found by one. */
  lemma MultiChannelComesFirst(hits: seq<Hit>, k: nat, out: seq<Evidence>, m: nat, i: nat, j: nat)
    requires RanksPositive(hits) && k >= 1 && 1 <= m < k + 2 && (forall h | h in hits :: h.rank <= m)
    requires IsFusion(hits, k, out) && i < |out| && j < |out|
    requires MultiChannel(out[i]) && |out[j].contributions| == 1
    ensures i < j
  {
    ContributionRanks(hits, out[i].citation.id, m);
    ContributionRanks(hits, out[j].citation.id, m);
    MultiWeighsMore(out[i].contributions, out[j].contributions, k, m);
    assert j < i ==> Precedes(hits, k, out[j].citation.id, out[i].citation.id);
  }

  lemma EveryResultHasAContribution(hits: seq<Hit>, k: nat, out: seq<Evidence>, i: nat)
    requires RanksPositive(hits) && k >= 1 && IsFusion(hits, k, out) && i < |out|
    ensures |out[i].contributions| >= 1
  {
    assert FromHits(hits, out[i].citation);
    var h :| h in hits && h.citation == out[i].citation;
    assert IsBest(hits, h.citation.id, h.channel, Best(hits, h.citation.id, h.channel));
  }

  /** So whenever any parent is multi-channel, the one parent the evidence rule inspects is. */
  lemma TopIsMultiChannel(hits: seq<Hit>, out: seq<Evidence>, i: nat)
    requires RanksPositive(hits) && (forall h | h in hits :: h.rank <= 50)
    requires IsFusion(hits, RRF_K, out) && i < |out| && MultiChannel(out[i])
    ensures MultiChannel(out[0])
  {
    EveryResultHasAContribution(hits, RRF_K, out, 0);
    if |out[0].contributions| == 1 { MultiChannelComesFirst(hits, RRF_K, out, 50, i, 0); }
  }

  /******* The evidence rule *******/

  datatype Strength = Strong | Weak | NoEvidence

  function QualifyingChannels(e: Evidence): set<Channel> {
    set c | c in e.contributions && c.rank <= 3 :: c.channel
  }

  function ClassifyEvidence(results: seq<Evidence>): Strength {
    if results == [] then NoEvidence
    else if |QualifyingChannels(results[0])| >= 2 then Strong
    else Weak
  }

  predicate TopThree(hits: seq<Hit>, id: nat, channel: Channel) {
    exists h | h in hits :: h.citation.id == id && h.channel == channel && h.rank <= 3
  }

  ghost predicate TwoChannels(hits: seq<Hit>, id: nat) {
    exists a, b :: a != b && TopThree(hits, id, a) && TopThree(hits, id, b)
  }

  lemma TopThreeExactly(hits: seq<Hit>, e: Evidence, channel: Channel)
    requires RanksPositive(hits) && e.contributions == Contributions(hits, e.citation.id)
    ensures channel in QualifyingChannels(e) <==> TopThree(hits, e.citation.id, channel)
  {
    var best := Best(hits, e.citation.id, channel);
    assert IsBest(hits, e.citation.id, channel, best);
    assert channel in QualifyingChannels(e) <==> best.Some? && best.value <= 3 by {
      if best.Some? { assert Contribution(channel, best.value) in e.contributions; }
    }
  }

  lemma TwoOfThree(s: set<Channel>)
    ensures |s| >= 2 <==> exists a, b :: a != b && a in s && b in s
  {
    if a, b :| a != b && a in s && b in s {
      assert s == {a, b} + (s - {a, b}) && |{a, b}| == 2;
    } else if s != {} {
      var a :| a in s;
      assert s == {a};
    }
  }

  lemma StrongExactly(hits: seq<Hit>, e: Evidence)
    requires RanksPositive(hits) && e.contributions == Contributions(hits, e.citation.id)
    ensures |QualifyingChannels(e)| >= 2 <==> TwoChannels(hits, e.citation.id)
  {
    TwoOfThree(QualifyingChannels(e));
    forall channel ensures channel in QualifyingChannels(e) <==> TopThree(hits, e.citation.id, channel) {
      TopThreeExactly(hits, e, channel);
    }
  }

  /** Evidence is strong exactly when the first result was found by two different channels among
      their first three, and there is none exactly when there was no hit. */
  lemma EvidenceExactly(hits: seq<Hit>, k: nat, out: seq<Evidence>)
    requires RanksPositive(hits) && k >= 1 && IsFusion(hits, k, out)
    ensures ClassifyEvidence(out).NoEvidence? <==> hits == []
    ensures ClassifyEvidence(out).Strong? <==> out != [] && TwoChannels(hits, out[0].citation.id)
  {
    if hits != [] { assert hits[0].citation.id in Ids(hits); }
    if out != [] {
      assert out[0].citation.id in Ids(hits) by { assert out[0] in out; }
      StrongExactly(hits, out[0]);
    }
  }

  /******* The fusion *******/

  datatype Candidate = Candidate(citation: Citation, contributions: seq<Contribution>, weight: real)

  function OfCitation(id: nat): Hit -> bool {
    (h: Hit) => h.citation.id == id
  }

  lemma BestPush(hits: seq<Hit>, hit: Hit, id: nat, channel: Channel)
    ensures var rest := BestHit(hits, id, channel);
            BestHit(hits + [hit], id, channel) ==
              if hit.citation.id == id && hit.channel == channel && (rest.None? || hit.rank < rest.value.rank) then Some(hit) else rest
  {
    assert (hits + [hit])[..|hits|] == hits;
  }

  lemma FirstPush(hits: seq<Hit>, hit: Hit, id: nat)
    ensures var first := FirstHit(hits, id);
            FirstHit(hits + [hit], id) == if first.None? && hit.citation.id == id then Some(hit) else first
  {
    assert (hits + [hit])[..|hits|] == hits;
  }

  lemma {:induction false} BestAmongItsOwn(hits: seq<Hit>, id: nat, channel: Channel)
    ensures BestHit(Keep(hits, OfCitation(id)), id, channel) == BestHit(hits, id, channel)
    ensures FirstHit(Keep(hits, OfCitation(id)), id) == FirstHit(hits, id)
  {
    if hits != [] {
      var front, last := hits[..|hits| - 1], hits[|hits| - 1];
      BestAmongItsOwn(front, id, channel);
      if last.citation.id == id {
        BestPush(Keep(front, OfCitation(id)), last, id, channel);
        FirstPush(Keep(front, OfCitation(id)), last, id);
      }
    }
  }

  lemma OwnContributions(hits: seq<Hit>, id: nat)
    requires RanksPositive(hits)
    ensures Contributions(Keep(hits, OfCitation(id)), id) == Contributions(hits, id)
    ensures Shown(Keep(hits, OfCitation(id)), id) == Shown(hits, id)
  {
    BestAmongItsOwn(hits, id, Dense);
    BestAmongItsOwn(hits, id, ExpectedQuestion);
    BestAmongItsOwn(hits, id, Lexical);
  }

  // The grouping dictionary after a prefix of the hits, and its keys in order of insertion.
  predicate Grouped(hits: seq<Hit>, groups: map<nat, seq<Hit>>, order: seq<nat>) {
    && groups.Keys == Ids(hits)
    && (forall id | id in groups :: groups[id] == Keep(hits, OfCitation(id)))
    && (forall id | id in order :: id in groups) && (forall id | id in groups :: id in order)
    && (forall i, j | 0 <= i < j < |order| :: order[i] != order[j])
  }

  method GroupHits(hits: seq<Hit>) returns (r: Option<(map<nat, seq<Hit>>, seq<nat>)>)
    ensures r.None? <==> !RanksPositive(hits)
    ensures r.Some? ==> Grouped(hits, r.value.0, r.value.1)
  {
    var groups: map<nat, seq<Hit>>, order: seq<nat> := map[], [];
    var i := 0;
    while i < |hits|
      invariant i <= |hits| && Grouped(hits[..i], groups, order) && RanksPositive(hits[..i])
    {
      var hit := hits[i];
      assert hits[..i + 1] == hits[..i] + [hit];
      if hit.rank < 1 {
        assert hit in hits;
        return None;
      }
      GroupOneMore(hits[..i], groups, order, hit);
      var id := hit.citation.id;
      if id in groups {
        groups := groups[id := groups[id] + [hit]];
      } else {
        groups, order := groups[id := [hit]], order + [id];
      }
      i := i + 1;
    }
    assert hits[..i] == hits;
    r := Some((groups, order));
  }

  lemma GroupOneMore(hits: seq<Hit>, groups: map<nat, seq<Hit>>, order: seq<nat>, hit: Hit)
    requires Grouped(hits, groups, order)
    ensures var id := hit.citation.id;
            var more := if id in groups then groups[id] + [hit] else [hit];
            Grouped(hits + [hit], groups[id := more], if id in groups then order else order + [id])
  {
    var id := hit.citation.id;
    assert Ids(hits + [hit]) == Ids(hits) + {id};
    forall other { KeepPush(hits, hit, OfCitation(other)); }
    if id !in groups { NoneOfCitation(hits, id); }
  }

  lemma NoneOfCitation(hits: seq<Hit>, id: nat)
    requires id !in Ids(hits)
    ensures Keep(hits, OfCitation(id)) == []
  {
    KeepNone(hits, OfCitation(id));
  }

  // The best hit of each channel among a citation's own hits.
  predicate BestByChannel(own: seq<Hit>, id: nat, byChannel: map<Channel, Hit>) {
    forall channel :: if channel in byChannel
      then BestHit(own, id, channel) == Some(byChannel[channel])
      else BestHit(own, id, channel).None?
  }

  lemma BestOneMore(own: seq<Hit>, hit: Hit, id: nat, byChannel: map<Channel, Hit>)
    requires hit.citation.id == id && BestByChannel(own, id, byChannel)
    ensures if hit.channel !in byChannel || hit.rank < byChannel[hit.channel].rank
            then BestByChannel(own + [hit], id, byChannel[hit.channel := hit])
            else BestByChannel(own + [hit], id, byChannel)
  {
    forall channel { BestPush(own, hit, id, channel); }
  }

  lemma ContributionsOf(own: seq<Hit>, id: nat, byChannel: map<Channel, Hit>)
    requires RanksPositive(own) && BestByChannel(own, id, byChannel)
    ensures FromBest(byChannel, Dense) + FromBest(byChannel, ExpectedQuestion) + FromBest(byChannel, Lexical) == Contributions(own, id)
  {
  }

  method MergeCitation(own: seq<Hit>, id: nat, k: nat) returns (c: Candidate)
    requires own != [] && RanksPositive(own) && k >= 1 && forall h | h in own :: h.citation.id == id
    ensures c.citation.id == id && FromHits(own, c.citation) && Shown(own, id) == Some(c.citation)
    ensures c.contributions == Contributions(own, id) && c.weight == WeightOf(own, k, id)
  {
    var byChannel: map<Channel, Hit> := map[];
    var i := 0;
    while i < |own|
      invariant i <= |own| && RanksPositive(own[..i]) && BestByChannel(own[..i], id, byChannel)
      invariant i > 0 ==> own[0].channel in byChannel && FirstHit(own[..i], id) == Some(own[0])
    {
      var hit := own[i];
      assert hit in own && own[..i + 1] == own[..i] + [hit];
      BestOneMore(own[..i], hit, id, byChannel);
      FirstPush(own[..i], hit, id);
      if hit.channel !in byChannel || hit.rank < byChannel[hit.channel].rank {
        byChannel := byChannel[hit.channel := hit];
      }
      i := i + 1;
    }
    assert own[..i] == own;
    ContributionsOf(own, id, byChannel);
    var contributions := FromBest(byChannel, Dense) + FromBest(byChannel, ExpectedQuestion) + FromBest(byChannel, Lexical);
    // The dictionary's first entry belongs to the channel seen first.
    var citation := byChannel[own[0].channel].citation;
    c := Candidate(citation, contributions, Weight(contributions, k));
  }

  function FromBest(byChannel: map<Channel, Hit>, channel: Channel): seq<Contribution> {
    if channel in byChannel && byChannel[channel].rank >= 0 then [Contribution(channel, byChannel[channel].rank)] else []
  }

  /******* Sorting *******/

  predicate Before(c: Candidate, d: Candidate) {
    c.weight > d.weight || (c.weight == d.weight && c.citation.id < d.citation.id)
  }

  function CandidateIds(cs: seq<Candidate>): set<nat> {
    set c | c in cs :: c.citation.id
  }

  predicate InOrder(cs: seq<Candidate>) {
    forall i, j | 0 <= i < j < |cs| :: Before(cs[i], cs[j])
  }

  method Insert(sorted: seq<Candidate>, c: Candidate) returns (r: seq<Candidate>)
    requires InOrder(sorted) && c.citation.id !in CandidateIds(sorted)
    ensures InOrder(r) && forall d :: d in r <==> d == c || d in sorted
    ensures CandidateIds(r) == CandidateIds(sorted) + {c.citation.id}
  {
    var at := 0;
    while at < |sorted| && !Before(c, sorted[at])
      invariant at <= |sorted| && forall i | 0 <= i < at :: Before(sorted[i], c)
    {
      assert sorted[at].citation.id in CandidateIds(sorted);
      at := at + 1;
    }
    r := sorted[..at] + [c] + sorted[at..];
  }

  /** fuse_ranked_hits: fails exactly on a constant below one or a rank below one, and otherwise
      returns the fusion of the hits. */
  method FuseRankedHits(hits: seq<Hit>, k: int) returns (r: Result<seq<Evidence>>)
    ensures r.Failure? <==> k < 1 || !RanksPositive(hits)
    ensures r.Success? ==> IsFusion(hits, k, r.value)
    ensures r.Success? ==> forall e | e in r.value :: Shown(hits, e.citation.id) == Some(e.citation)
  {
    if k < 1 {
      return Failure("RRF_K_MUST_BE_POSITIVE");
    }
    var grouped := GroupHits(hits);
    if grouped.None? {
      return Failure("CHANNEL_RANK_MUST_BE_POSITIVE");
    }
    var (groups, order) := grouped.value;
    var candidates := SortCandidates(hits, groups, order, k);
    var out: seq<Evidence> := [];
    var i := 0;
    while i < |candidates|
      invariant |out| == i <= |candidates|
      invariant forall j | 0 <= j < i :: out[j] == Evidence(candidates[j].citation, j + 1, candidates[j].contributions)
    {
      out := out + [Evidence(candidates[i].citation, i + 1, candidates[i].contributions)];
      i := i + 1;
    }
    FusionOf(hits, k, candidates, out);
    r := Success(out);
  }

  // A candidate carries what the hits say of its citation.
  predicate Faithful(hits: seq<Hit>, k: nat, c: Candidate)
    requires RanksPositive(hits) && k >= 1
  {
    && FromHits(hits, c.citation) && Shown(hits, c.citation.id) == Some(c.citation)
    && c.contributions == Contributions(hits, c.citation.id) && c.weight == WeightOf(hits, k, c.citation.id)
  }

  predicate AllFaithful(hits: seq<Hit>, k: nat, cs: seq<Candidate>)
    requires RanksPositive(hits) && k >= 1
  {
    forall c | c in cs :: Faithful(hits, k, c)
  }

  function FirstIds(order: seq<nat>, n: nat): set<nat>
    requires n <= |order|
  {
    set i | 0 <= i < n :: order[i]
  }

  lemma NextId(hits: seq<Hit>, groups: map<nat, seq<Hit>>, order: seq<nat>, i: nat)
    requires Grouped(hits, groups, order) && i < |order|
    ensures order[i] in groups && order[i] !in FirstIds(order, i)
    ensures FirstIds(order, i + 1) == FirstIds(order, i) + {order[i]}
  {
    assert order[i] in order;
  }

  lemma AllIds(hits: seq<Hit>, groups: map<nat, seq<Hit>>, order: seq<nat>)
    requires Grouped(hits, groups, order)
    ensures FirstIds(order, |order|) == Ids(hits)
  {
    forall id | id in Ids(hits) ensures id in FirstIds(order, |order|) {
      assert id in groups && id in order;
    }
  }

  method SortCandidates(hits: seq<Hit>, groups: map<nat, seq<Hit>>, order: seq<nat>, k: nat) returns (candidates: seq<Candidate>)
    requires RanksPositive(hits) && k >= 1 && Grouped(hits, groups, order)
    ensures InOrder(candidates) && AllFaithful(hits, k, candidates)
    ensures CandidateIds(candidates) == Ids(hits)
  {
    candidates := [];
    var i := 0;
    while i < |order|
      invariant i <= |order| && InOrder(candidates) && AllFaithful(hits, k, candidates)
      invariant CandidateIds(candidates) == FirstIds(order, i)
    {
      NextId(hits, groups, order, i);
      var c := FaithfulCandidate(hits, groups, order, i, k);
      candidates := Insert(candidates, c);
      i := i + 1;
    }
    AllIds(hits, groups, order);
  }

  method FaithfulCandidate(hits: seq<Hit>, groups: map<nat, seq<Hit>>, order: seq<nat>, i: nat, k: nat) returns (c: Candidate)
    requires RanksPositive(hits) && k >= 1 && Grouped(hits, groups, order) && i < |order|
    ensures Faithful(hits, k, c) && c.citation.id == order[i]
  {
    var id := order[i];
    assert id in order && id in Ids(hits);
    ghost var h :| h in hits && h.citation.id == id;
    assert h in groups[id];
    c := MergeCitation(groups[id], id, k);
    OwnContributions(hits, id);
  }

  lemma FusionOf(hits: seq<Hit>, k: nat, candidates: seq<Candidate>, out: seq<Evidence>)
    requires RanksPositive(hits) && k >= 1 && InOrder(candidates) && |out| == |candidates|
    requires AllFaithful(hits, k, candidates) && CandidateIds(candidates) == Ids(hits)
    requires forall j | 0 <= j < |out| :: out[j] == Evidence(candidates[j].citation, j + 1, candidates[j].contributions)
    ensures IsFusion(hits, k, out)
    ensures forall e | e in out :: Shown(hits, e.citation.id) == Some(e.citation)
  {
    forall j | 0 <= j < |out| ensures Faithful(hits, k, candidates[j]) && out[j].citation.id in Ids(hits) {
      assert candidates[j] in candidates;
    }
    forall id | id in CandidateIds(candidates) ensures id in IdsOf(out) {
      var c :| c in candidates && c.citation.id == id;
      var j :| 0 <= j < |candidates| && candidates[j] == c;
      assert out[j] in out;
    }
    forall i, j | 0 <= i < j < |out| ensures Precedes(hits, k, out[i].citation.id, out[j].citation.id) {
      assert Before(candidates[i], candidates[j]);
    }
  }
}
