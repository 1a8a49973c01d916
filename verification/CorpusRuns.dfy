/** Runs of the corpus transactions from the empty store, in which a live version loses what it
    promised: an embedding failure mark, a misfiled row, a row with a blank chapter. */
module CorpusRuns {
  import opened Wrappers
  import opened Sequences
  import opened CorpusLifecycle

  const EMPTY := Store(map[], [])
  const CONFIG := Config("m", "r", VECTOR_DIMENSIONS, "f", true)
  const TEXT := ChunkInput("", [])
  const GOOD := Embedding(Some(VECTOR_DIMENSIONS), Embedded, "m", "r", "f", Some(TEXT))

  // Two versions of the document of chapter "a".
  function DocOf(version: string): Doc {
    Doc(ResourceOf("a"), version)
  }

  function Row(doc: Doc, chapter: string, e: Embedding): Chunk {
    Chunk(doc, chapter, "", e, [], [])
  }

  // A version with two rows filed under that document: one of chapter "a", one of another.
  function Book(status: Status, doc: Doc, other: string, e0: Embedding, e1: Embedding, embedded: nat): Version {
    Version(0, CONFIG, status, {doc}, Rows(doc, other, e0, e1), Counts(2, embedded, 0, 0))
  }

  function Import(id: nat, doc: Doc, other: string): seq<Step> {
    [NewBuilding(0, CONFIG, id), ReplaceDocument(id, doc, Rows(doc, other, UNEMBEDDED, UNEMBEDDED)),
     WriteEmbedding(id, 0, None, CONFIG, TEXT), WriteEmbedding(id, 1, None, CONFIG, TEXT)]
  }

  lemma RunPush(s: Store, steps: seq<Step>, st: Step)
    ensures Run(s, steps + [st]) == Next(Run(s, steps), st).0
  {
    assert (steps + [st])[..|steps|] == steps;
  }

  lemma NoQuestions(chunks: seq<Chunk>)
    requires |chunks| == 2 && chunks[0].questions == [] && chunks[1].questions == []
    ensures Questions(chunks) == []
  {
    assert chunks[..1] == [chunks[0]] && [chunks[0]][..0] == [];
    assert Questions([chunks[0]]) == Questions([]) + [];
  }

  lemma TwoRowsCounted(v: Version)
    requires |v.chunks| == 2 && v.chunks[0].questions == [] && v.chunks[1].questions == []
    ensures (forall k | k in v.chunks :: ValidFor(k.emb, v.config)) ==> Recounted(v) == v.(counts := Counts(2, 2, 0, 0))
    ensures (forall k | k in v.chunks :: !ValidFor(k.emb, v.config)) ==> Recounted(v) == v.(counts := Counts(2, 0, 0, 0))
  {
    NoQuestions(v.chunks);
    KeptAllExactly(v.chunks, ChunkEmbedded(v.config));
    if forall k | k in v.chunks :: !ValidFor(k.emb, v.config) { KeepNone(v.chunks, ChunkEmbedded(v.config)); }
  }

  const FIRST := Version(0, CONFIG, Building, {}, [], Counts(0, 0, 0, 0))

  function Rows(doc: Doc, other: string, e0: Embedding, e1: Embedding): seq<Chunk> {
    [Row(doc, "a", e0), Row(doc, other, e1)]
  }

  lemma RowsAreImported(doc: Doc, other: string)
    ensures ImportedRows(Rows(doc, other, UNEMBEDDED, UNEMBEDDED), doc) == Rows(doc, other, UNEMBEDDED, UNEMBEDDED)
  {
    var rows := Rows(doc, other, UNEMBEDDED, UNEMBEDDED);
    forall i | 0 <= i < 2 ensures Imported(rows[i], doc) == rows[i] {
      assert Keep(rows[i].questions, HasText()) == [] && WithoutVectors([]) == [];
    }
  }

  lemma ReplacingFills(s: Store, id: nat, doc: Doc, other: string)
    requires id in s.versions && s.versions[id] == FIRST
    ensures Next(s, ReplaceDocument(id, doc, Rows(doc, other, UNEMBEDDED, UNEMBEDDED))).0
            == Put(s, id, Book(Building, doc, other, UNEMBEDDED, UNEMBEDDED, 0))
  {
    var rows := Rows(doc, other, UNEMBEDDED, UNEMBEDDED);
    RowsAreImported(doc, other);
    assert Keep(FIRST.chunks, OutsideDocument(doc)) + rows == rows && FIRST.docs + {doc} == {doc};
    TwoRowsCounted(FIRST.(docs := {doc}, chunks := rows));
    ReplacementIs(s, id, doc, rows, Book(Building, doc, other, UNEMBEDDED, UNEMBEDDED, 0));
  }

  lemma ReplacementIs(s: Store, id: nat, doc: Doc, chunks: seq<Chunk>, v: Version)
    requires id in s.versions && s.versions[id].status.Building?
    requires var w := s.versions[id];
             Recounted(w.(docs := w.docs + {doc}, chunks := Keep(w.chunks, OutsideDocument(doc)) + ImportedRows(chunks, doc))) == v
    ensures Next(s, ReplaceDocument(id, doc, chunks)).0 == Put(s, id, v)
  {
  }

  // The first or the second row gets its vector.
  lemma Embeds(s: Store, id: nat, doc: Doc, other: string, k: nat)
    requires k < 2 && id in s.versions
    requires s.versions[id] == Book(Building, doc, other, if k == 1 then GOOD else UNEMBEDDED, UNEMBEDDED, 0)
    ensures Next(s, WriteEmbedding(id, k, None, CONFIG, TEXT)).0
            == Put(s, id, Book(Building, doc, other, GOOD, if k == 1 then GOOD else UNEMBEDDED, 0))
  {
    var v := s.versions[id];
    var w := Book(Building, doc, other, GOOD, if k == 1 then GOOD else UNEMBEDDED, 0);
    assert WithEmbedding(v, k, None, EmbeddedAs(CONFIG, TEXT)).chunks == w.chunks;
  }

  // One more step of a run, to a store that is known.
  lemma StepTo(s: Store, steps: seq<Step>, st: Step, t: Store, t': Store)
    requires Run(s, steps) == t && Next(t, st).0 == t'
    ensures Run(s, steps + [st]) == t'
  {
    RunPush(s, steps, st);
  }

  lemma Fills(s: Store, steps: seq<Step>, id: nat, doc: Doc, other: string)
    requires id !in Run(s, steps).versions
    ensures var i := Import(id, doc, other);
            Run(s, steps + [i[0]] + [i[1]]) == Put(Run(s, steps), id, Book(Building, doc, other, UNEMBEDDED, UNEMBEDDED, 0))
  {
    var t, i := Run(s, steps), Import(id, doc, other);
    var filled := Book(Building, doc, other, UNEMBEDDED, UNEMBEDDED, 0);
    Begins(t, id);
    StepTo(s, steps, i[0], t, Put(t, id, FIRST));
    ReplacingFills(Put(t, id, FIRST), id, doc, other);
    PutTwice(t, id, FIRST, filled);
    StepTo(s, steps + [i[0]], i[1], Put(t, id, FIRST), Put(t, id, filled));
  }

  lemma EmbedsBoth(s: Store, steps: seq<Step>, t: Store, id: nat, doc: Doc, other: string)
    requires Run(s, steps) == Put(t, id, Book(Building, doc, other, UNEMBEDDED, UNEMBEDDED, 0))
    ensures var i := Import(id, doc, other);
            Run(s, steps + [i[2]] + [i[3]]) == Put(t, id, Book(Building, doc, other, GOOD, GOOD, 0))
  {
    var i := Import(id, doc, other);
    var none, one, both := Book(Building, doc, other, UNEMBEDDED, UNEMBEDDED, 0), Book(Building, doc, other, GOOD, UNEMBEDDED, 0),
                           Book(Building, doc, other, GOOD, GOOD, 0);
    Embeds(Put(t, id, none), id, doc, other, 0);
    PutTwice(t, id, none, one);
    StepTo(s, steps, i[2], Put(t, id, none), Put(t, id, one));
    Embeds(Put(t, id, one), id, doc, other, 1);
    PutTwice(t, id, one, both);
    StepTo(s, steps + [i[2]], i[3], Put(t, id, one), Put(t, id, both));
  }

  // The import of a book, up to its last embedding.
  lemma Imports(s: Store, steps: seq<Step>, id: nat, doc: Doc, other: string)
    requires id !in Run(s, steps).versions
    ensures Run(s, steps + Import(id, doc, other)) == Put(Run(s, steps), id, Book(Building, doc, other, GOOD, GOOD, 0))
  {
    var i := Import(id, doc, other);
    Fills(s, steps, id, doc, other);
    EmbedsBoth(s, steps + [i[0]] + [i[1]], Run(s, steps), id, doc, other);
    assert steps + i == steps + [i[0]] + [i[1]] + [i[2]] + [i[3]];
  }

  lemma Begins(t: Store, id: nat)
    requires id !in t.versions
    ensures Next(t, NewBuilding(0, CONFIG, id)).0 == Put(t, id, FIRST)
  {
  }

  lemma PutTwice(s: Store, id: nat, v: Version, w: Version)
    ensures Put(Put(s, id, v), id, w) == Put(s, id, w)
  {
  }

  /******* The live version *******/

  // Chapter "a", with a row of chapter "b" filed under its document.
  const PUBLISH := Import(0, DocOf("1"), "b") + [Confirm(0, true, None), Approve(0), Activate(0, false, true)]
  const LIVE := Book(Active, DocOf("1"), "b", GOOD, GOOD, 2)
  const PUBLISHED := Store(map[0 := LIVE], [Approval(0, true)])

  lemma BookIsComplete(status: Status, doc: Doc, other: string)
    ensures Recounted(Book(status, doc, other, GOOD, GOOD, 0)) == Book(status, doc, other, GOOD, GOOD, 2)
    ensures Complete(Book(status, doc, other, GOOD, GOOD, 2))
  {
    var v := Book(status, doc, other, GOOD, GOOD, 2);
    TwoRowsCounted(Book(status, doc, other, GOOD, GOOD, 0));
    TwoRowsCounted(v);
    NoQuestions(v.chunks);
    CompleteExactly(v);
  }

  const READY := Store(map[0 := Book(QaReady, DocOf("1"), "b", GOOD, GOOD, 2)], [])

  lemma ConfirmReadies(s: Store)
    requires s == Put(EMPTY, 0, Book(Building, DocOf("1"), "b", GOOD, GOOD, 0))
    ensures Next(s, Confirm(0, true, None)).0 == READY
  {
    BookIsComplete(Building, DocOf("1"), "b");
    PutTwice(EMPTY, 0, s.versions[0], READY.versions[0]);
  }

  const APPROVED := READY.(approvals := [Approval(0, true)])

  lemma ApproveApproves()
    ensures Next(READY, Approve(0)).0 == APPROVED
  {
  }

  lemma ActivatePublishes()
    ensures Next(APPROVED, Activate(0, false, true)).0 == PUBLISHED
  {
    BookIsComplete(QaReady, DocOf("1"), "b");
    assert Activatable(APPROVED, 0, false, true);
    assert Activated(APPROVED, 0).versions == PUBLISHED.versions;
  }

  lemma PublishPublishes()
    ensures Run(EMPTY, PUBLISH) == PUBLISHED
  {
    var import0 := Import(0, DocOf("1"), "b");
    Imports(EMPTY, [], 0, DocOf("1"), "b");
    assert [] + import0 == import0;
    Publishes(import0);
    assert PUBLISH == import0 + [Confirm(0, true, None)] + [Approve(0)] + [Activate(0, false, true)];
  }

  lemma Publishes(steps: seq<Step>)
    requires Run(EMPTY, steps) == Put(EMPTY, 0, Book(Building, DocOf("1"), "b", GOOD, GOOD, 0))
    ensures Run(EMPTY, steps + [Confirm(0, true, None)] + [Approve(0)] + [Activate(0, false, true)]) == PUBLISHED
  {
    ConfirmReadies(Run(EMPTY, steps));
    StepTo(EMPTY, steps, Confirm(0, true, None), Run(EMPTY, steps), READY);
    ApproveApproves();
    StepTo(EMPTY, steps + [Confirm(0, true, None)], Approve(0), READY, APPROVED);
    ActivatePublishes();
    StepTo(EMPTY, steps + [Confirm(0, true, None)] + [Approve(0)], Activate(0, false, true), APPROVED, PUBLISHED);
  }

  /** From the empty store: a failure mark that arrives after the activation leaves the version
      live and incomplete. */
  lemma FailureMarkSpoilsLive()
    ensures var before, after := Run(EMPTY, PUBLISH), Run(EMPTY, PUBLISH + [MarkFailed(0, 0, None)]);
            && LiveSound(before) && !LiveSound(after)
            && 0 in after.versions && after.versions[0].status.Active? && !Complete(after.versions[0])
  {
    PublishPublishes();
    BookIsComplete(Active, DocOf("1"), "b");
    RunPush(EMPTY, PUBLISH, MarkFailed(0, 0, None));
    StepKeepsLiveExactly(PUBLISHED, MarkFailed(0, 0, None));
    var v := Run(EMPTY, PUBLISH + [MarkFailed(0, 0, None)]).versions[0];
    assert v.chunks[0] in v.chunks && !ValidFor(v.chunks[0].emb, v.config);
    CompleteExactly(v);
  }

  lemma RowsByChapter(v: Version)
    requires |v.chunks| == 2 && v.chunks[0].chapter == "a" && v.chunks[1].chapter != "a"
    ensures Keep(v.chunks, InChapter("a")) == [v.chunks[0]] && Keep(v.chunks, OutsideChapter("a")) == [v.chunks[1]]
  {
    assert v.chunks[..1] == [v.chunks[0]] && v.chunks[..1][..0] == [];
  }

  lemma MisfiledRowIsRemoved()
    ensures ChapterRemoved(LIVE, "a").chunks == [] && ChapterRemoved(LIVE, "a").docs == {}
  {
    RowsByChapter(LIVE);
    KeepNone([LIVE.chunks[1]], OutsideResource(ResourceOf("a")));
  }

  /** From the empty store: deleting chapter "a" takes along the row of chapter "b" that was filed
      under its document. */
  lemma DeletionLosesMisfiledRow()
    ensures var before, after := Run(EMPTY, PUBLISH), Run(EMPTY, PUBLISH + [DeleteChapter(0, "a")]);
            && 0 in before.versions && HasChapter(before.versions[0], "b")
            && 0 in after.versions && after.versions[0].status.Active? && after.versions[0].chunks == []
  {
    PublishPublishes();
    DeletionEmpties();
    RunPush(EMPTY, PUBLISH, DeleteChapter(0, "a"));
    assert LIVE.chunks[1] in LIVE.chunks && LIVE.chunks[1].chapter == "b";
  }

  lemma DeletionEmpties()
    ensures var s := Next(PUBLISHED, DeleteChapter(0, "a")).0;
            0 in s.versions && s.versions[0].status.Active? && s.versions[0].chunks == []
  {
    MisfiledRowIsRemoved();
    DeletionIs(PUBLISHED, 0, "a");
  }

  lemma DeletionIs(s: Store, id: nat, chapter: string)
    requires id in s.versions && s.versions[id].status.Active?
    ensures var s' := Next(s, DeleteChapter(id, chapter)).0;
            id in s'.versions && s'.versions[id].status.Active? && s'.versions[id].chunks == ChapterRemoved(s.versions[id], chapter).chunks
  {
  }

  // A new version of chapter "a", with a row that has no chapter.
  const REPUBLISH := PUBLISH + Import(1, DocOf("2"), "") + [Confirm(1, true, Some("a"))]

  const REVISED := Book(QaReady, DocOf("2"), "", GOOD, GOOD, 2)
  const REVISING := Store(map[0 := LIVE, 1 := REVISED], [Approval(0, true)])

  lemma RevisedIsPromotable()
    ensures Promotable(REVISED, LIVE, "a")
  {
    MisfiledRowIsRemoved();
    assert REVISED.chunks[0] in REVISED.chunks && REVISED.chunks[0].chapter == "a";
    assert DocOf("2") in REVISED.docs;
  }

  lemma PromotedIsRevised()
    ensures Promoted(REVISED, LIVE, "a").chunks == REVISED.chunks && Promoted(REVISED, LIVE, "a").status.Active?
  {
    MisfiledRowIsRemoved();
    assert [] + REVISED.chunks == REVISED.chunks;
  }

  lemma OtherIsLive(s: Store)
    requires s == Put(PUBLISHED, 1, Book(Building, DocOf("2"), "", GOOD, GOOD, 0))
    ensures LiveOf(s, 1) == Some(0)
  {
    assert IsActiveOf(s, 0, s.versions[1].corpus);
  }

  lemma ConfirmedAndPromoted(s: Store)
    requires s == Put(PUBLISHED, 1, Book(Building, DocOf("2"), "", GOOD, GOOD, 0))
    ensures Confirmed(s, 1, true, Some("a"), Some(0)).0 == WithPromotion(REVISING, 1, 0, "a")
  {
    BookIsComplete(Building, DocOf("2"), "");
    RevisedIsPromotable();
    PutTwice(PUBLISHED, 1, s.versions[1], REVISED);
    ConfirmationIs(s, 1, "a", 0, REVISED, REVISING);
  }

  lemma ConfirmationIs(s: Store, id: nat, chapter: string, live: nat, ready: Version, s': Store)
    requires id in s.versions && live in s.versions && id != live && s.versions[id].status.Building?
    requires Complete(Recounted(s.versions[id])) && Recounted(s.versions[id]).(status := QaReady) == ready
    requires Put(s, id, ready) == s' && Promotable(ready, s.versions[live], chapter)
    ensures Confirmed(s, id, true, Some(chapter), Some(live)).0 == WithPromotion(s', id, live, chapter)
  {
  }

  lemma ConfirmIs(s: Store, id: nat, settled: bool, promote: Option<string>, live: Option<nat>, s': Store)
    requires id in s.versions && LiveOf(s, id) == live && Confirmed(s, id, settled, promote, live).0 == s'
    ensures Next(s, Confirm(id, settled, promote)).0 == s'
  {
  }

  lemma ConfirmPromotes(s: Store)
    requires s == Put(PUBLISHED, 1, Book(Building, DocOf("2"), "", GOOD, GOOD, 0))
    ensures Next(s, Confirm(1, true, Some("a"))).0 == WithPromotion(REVISING, 1, 0, "a")
  {
    OtherIsLive(s);
    ConfirmedAndPromoted(s);
    ConfirmIs(s, 1, true, Some("a"), Some(0), WithPromotion(REVISING, 1, 0, "a"));
  }

  predicate HasChapter(v: Version, chapter: string) {
    exists k | k in v.chunks :: k.chapter == chapter
  }

  lemma ChaptersSwap()
    ensures HasChapter(LIVE, "b") && !HasChapter(LIVE, "")
    ensures HasChapter(Promoted(REVISED, LIVE, "a"), "") && !HasChapter(Promoted(REVISED, LIVE, "a"), "b")
  {
    PromotedIsRevised();
    assert LIVE.chunks[1] in LIVE.chunks && LIVE.chunks[1].chapter == "b";
    assert REVISED.chunks[1] in REVISED.chunks && REVISED.chunks[1].chapter == "";
  }

  /** From the empty store: a promotion of chapter "a" loses the misfiled row of chapter "b" and
      brings the temporary version's row without a chapter into the live version. */
  lemma PromotionMovesBlankRow()
    ensures var before, after := Run(EMPTY, PUBLISH), Run(EMPTY, REPUBLISH);
            && 0 in before.versions && HasChapter(before.versions[0], "b") && !HasChapter(before.versions[0], "")
            && 0 in after.versions && HasChapter(after.versions[0], "") && !HasChapter(after.versions[0], "b")
            && after.versions[0].status.Active?
  {
    var steps := PUBLISH + Import(1, DocOf("2"), "");
    PublishPublishes();
    Imports(EMPTY, PUBLISH, 1, DocOf("2"), "");
    ConfirmPromotes(Run(EMPTY, steps));
    RunPush(EMPTY, steps, Confirm(1, true, Some("a")));
    ChaptersSwap();
    PromotionIn(REVISING);
  }

  lemma PromotionIn(s: Store)
    requires s == REVISING
    ensures var s' := WithPromotion(s, 1, 0, "a");
            0 in s'.versions && s'.versions[0] == Promoted(REVISED, LIVE, "a") && s'.versions[0].status.Active?
  {
    PromotedIsRevised();
  }
}
