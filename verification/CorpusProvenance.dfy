/** What the stored vectors were made from.  A worker reads a row's text, has it embedded, and
    writes the vector; the write checks the version but not the text, so a row edited in between
    can end with the vector of its old text. */
module CorpusProvenance {
  import opened Wrappers
  import opened Sequences
  import opened CorpusLifecycle
  import opened CorpusRuns

  /******* The text of a row *******/

  // Of the visuals only the approved ones belong to a chunk's input, and not their policies.
  function VisualInputs(visuals: seq<Visual>): seq<(string, string)> {
    if visuals == [] then []
    else
      var last := visuals[|visuals| - 1];
      VisualInputs(visuals[..|visuals| - 1]) + if last.review.ApprovedReview? then [(last.title, last.description)] else []
  }

  function InputOf(k: Chunk): Input {
    ChunkInput(k.content, VisualInputs(k.visuals))
  }

  function RowInput(v: Version, k: nat, q: Option<nat>): Input
    requires RowExists(v, k, q)
  {
    if q.None? then InputOf(v.chunks[k]) else QuestionInput(v.chunks[k].questions[q.value].text)
  }

  predicate Own(e: Embedding, input: Input) {
    e.vector.Some? ==> e.input == Some(input)
  }

  predicate QuestionsFaithful(questions: seq<Question>) {
    forall q | q in questions :: Own(q.emb, QuestionInput(q.text))
  }

  predicate RowFaithful(k: Chunk) {
    Own(k.emb, InputOf(k)) && QuestionsFaithful(k.questions)
  }

  predicate RowsFaithful(chunks: seq<Chunk>) {
    forall k | k in chunks :: RowFaithful(k)
  }

  // Every stored vector was made from the text its row has now.
  predicate Faithful(s: Store) {
    forall id | id in s.versions :: RowsFaithful(s.versions[id].chunks)
  }

  // A vector write that is applied to a row whose text is no longer the one that was embedded.
  predicate LateWrite(s: Store, st: Step) {
    st.WriteEmbedding? && Writable(s, st.id, st.k, st.q, st.config) && st.input != RowInput(s.versions[st.id], st.k, st.q)
  }

  /******* Every transaction *******/

  lemma UpdateKeepsFaithful(s: Store, s': Store, id: nat, chunks: seq<Chunk>)
    requires Faithful(s) && id in s'.versions && s'.versions[id].chunks == chunks
    requires forall i | i in s'.versions && i != id :: i in s.versions && s'.versions[i].chunks == s.versions[i].chunks
    ensures Faithful(s') <==> RowsFaithful(chunks)
  {
  }

  lemma ImportedIsFaithful(k: Chunk, doc: Doc)
    ensures RowFaithful(Imported(k, doc))
  {
  }

  lemma SanitizedIsFaithful(k: Chunk, c: Config)
    requires RowFaithful(k)
    ensures RowFaithful(Sanitized(k, c))
  {
    var r := Sanitized(k, c);
    assert InputOf(r) == InputOf(k);
    forall q | q in r.questions ensures Own(q.emb, QuestionInput(q.text)) {
      var i :| 0 <= i < |r.questions| && r.questions[i] == q;
      assert k.questions[i] in k.questions;
    }
  }

  lemma ImportKeepsFaithful(rows: seq<Chunk>, chunks: seq<Chunk>, doc: Doc)
    requires RowsFaithful(rows)
    ensures RowsFaithful(Keep(rows, OutsideDocument(doc)) + ImportedRows(chunks, doc))
  {
    forall i | 0 <= i < |chunks| ensures RowFaithful(ImportedRows(chunks, doc)[i]) { ImportedIsFaithful(chunks[i], doc); }
  }

  lemma DraftKeepsFaithful(chunks: seq<Chunk>, c: Config)
    requires RowsFaithful(chunks)
    ensures RowsFaithful(SanitizedRows(chunks, c))
  {
    forall i | 0 <= i < |chunks| ensures RowFaithful(SanitizedRows(chunks, c)[i]) {
      assert chunks[i] in chunks;
      SanitizedIsFaithful(chunks[i], c);
    }
  }

  lemma RowUpdateExactly(chunks: seq<Chunk>, k: nat, row: Chunk)
    requires RowsFaithful(chunks) && k < |chunks|
    ensures RowsFaithful(chunks[k := row]) <==> RowFaithful(row)
  {
    assert chunks[k := row][k] == row;
  }

  lemma QuestionEditKeepsFaithful(questions: seq<Question>, edit: QuestionEdit)
    requires QuestionsFaithful(questions) && EditedQuestions(questions, edit).Some?
    ensures QuestionsFaithful(EditedQuestions(questions, edit).value)
  {
  }

  lemma {:induction false} OtherFieldsAreNoInput(visuals: seq<Visual>, i: nat, v: Visual)
    requires i < |visuals|
    requires (v.title, v.description, v.review) == (visuals[i].title, visuals[i].description, visuals[i].review)
    ensures VisualInputs(visuals[i := v]) == VisualInputs(visuals)
  {
    var n := |visuals| - 1;
    if i < n {
      assert visuals[i := v][..n] == visuals[..n][i := v];
      OtherFieldsAreNoInput(visuals[..n], i, v);
    } else {
      assert visuals[i := v][..n] == visuals[..n];
    }
  }

  lemma VisualEditKeepsFaithful(k: Chunk, i: nat, v: Visual)
    requires RowFaithful(k) && i < |k.visuals|
    ensures RowFaithful(ChunkWithVisual(k, i, v))
  {
    var before := k.visuals[i];
    if (v.title, v.description, v.review) == (before.title, before.description, before.review) {
      OtherFieldsAreNoInput(k.visuals, i, v);
    }
  }

  lemma QuestionUpdateExactly(questions: seq<Question>, i: nat, q: Question)
    requires QuestionsFaithful(questions) && i < |questions|
    ensures QuestionsFaithful(questions[i := q]) <==> Own(q.emb, QuestionInput(q.text))
  {
    assert questions[i := q][i] == q;
  }

  // The row after its embedding, or that of one of its questions, is written.
  lemma WrittenRowExactly(v: Version, k: nat, q: Option<nat>, e: Embedding -> Embedding)
    requires RowsFaithful(v.chunks) && RowExists(v, k, q)
    ensures var before := if q.None? then v.chunks[k].emb else v.chunks[k].questions[q.value].emb;
            RowsFaithful(WithEmbedding(v, k, q, e).chunks) <==> Own(e(before), RowInput(v, k, q))
  {
    var row := v.chunks[k];
    assert row in v.chunks;
    if q.None? {
      assert InputOf(row.(emb := e(row.emb))) == InputOf(row);
      RowUpdateExactly(v.chunks, k, row.(emb := e(row.emb)));
    } else {
      var question := row.questions[q.value].(emb := e(row.questions[q.value].emb));
      var written := row.(questions := row.questions[q.value := question]);
      assert InputOf(written) == InputOf(row);
      QuestionUpdateExactly(row.questions, q.value, question);
      RowUpdateExactly(v.chunks, k, written);
    }
  }

  lemma FailureKeepsFaithful(v: Version, k: nat, q: Option<nat>)
    requires RowsFaithful(v.chunks) && RowExists(v, k, q)
    ensures RowsFaithful(WithEmbedding(v, k, q, Failing()).chunks)
  {
    WrittenRowExactly(v, k, q, Failing());
    assert v.chunks[k] in v.chunks;
    if q.Some? { assert v.chunks[k].questions[q.value] in v.chunks[k].questions; }
  }

  lemma PromotionKeepsFaithful(s: Store, temp: nat, live: nat, chapter: string)
    requires Faithful(s) && temp in s.versions && live in s.versions && temp != live
    ensures Faithful(WithPromotion(s, temp, live, chapter))
  {
    var s' := WithPromotion(s, temp, live, chapter);
    UpdateKeepsFaithful(s, s', live, s'.versions[live].chunks);
  }

  lemma ConfirmKeepsFaithful(s: Store, i: nat, live: Option<nat>, promote: Option<string>, s': Store)
    requires Faithful(s) && i in s.versions && (live.Some? ==> live.value in s.versions && live.value != i)
    requires ConfirmsTo(s, i, live, promote, s')
    ensures Faithful(s')
  {
    var ready := Put(s, i, Recounted(s.versions[i]).(status := QaReady));
    UpdateKeepsFaithful(s, ready, i, s.versions[i].chunks);
    if live.Some? && promote.Some? { PromotionKeepsFaithful(ready, i, live.value, promote.value); }
  }

  lemma EditKeepsFaithful(s: Store, id: nat, k: nat, row: Chunk)
    requires Faithful(s) && id in s.versions && k < |s.versions[id].chunks| && RowFaithful(row)
    ensures Faithful(Edited(s, id, s.versions[id].chunks[k := row]))
  {
    var chunks := s.versions[id].chunks;
    RowUpdateExactly(chunks, k, row);
    UpdateKeepsFaithful(s, Edited(s, id, chunks[k := row]), id, chunks[k := row]);
  }

  lemma QuestionEditStep(s: Store, id: nat, k: nat, edit: QuestionEdit)
    requires Faithful(s)
    ensures Faithful(Next(s, EditQuestion(id, k, edit)).0)
  {
    if Editable(s, id) && k < |s.versions[id].chunks| {
      var row := s.versions[id].chunks[k];
      var questions := EditedQuestions(row.questions, edit);
      if questions.Some? {
        assert row in s.versions[id].chunks;
        QuestionEditKeepsFaithful(row.questions, edit);
        assert InputOf(row.(questions := questions.value)) == InputOf(row);
        EditKeepsFaithful(s, id, k, row.(questions := questions.value));
      }
    }
  }

  lemma VisualEditStep(s: Store, id: nat, k: nat, v: nat, edit: VisualEdit)
    requires Faithful(s)
    ensures Faithful(Next(s, EditVisual(id, k, v, edit)).0)
  {
    if Editable(s, id) && k < |s.versions[id].chunks| && v < |s.versions[id].chunks[k].visuals| {
      var row := s.versions[id].chunks[k];
      var visual := EditedVisual(row.visuals[v], edit);
      if visual.Some? {
        assert row in s.versions[id].chunks;
        VisualEditKeepsFaithful(row, v, visual.value);
        EditKeepsFaithful(s, id, k, ChunkWithVisual(row, v, visual.value));
      }
    }
  }

  lemma WriteStepExactly(s: Store, st: Step)
    requires Faithful(s) && st.WriteEmbedding?
    ensures Faithful(Next(s, st).0) <==> !LateWrite(s, st)
  {
    if Writable(s, st.id, st.k, st.q, st.config) {
      var v := s.versions[st.id];
      var w := WithEmbedding(v, st.k, st.q, EmbeddedAs(st.config, st.input));
      WrittenRowExactly(v, st.k, st.q, EmbeddedAs(st.config, st.input));
      UpdateKeepsFaithful(s, Put(s, st.id, w), st.id, w.chunks);
    }
  }

  lemma RowsStepKeepsFaithful(s: Store, st: Step)
    requires Faithful(s)
    requires st.NewBuilding? || st.CreateDraft? || st.Reopen? || st.ReplaceDocument? || st.MarkFailed? || st.DeleteChapter?
    ensures Faithful(Next(s, st).0)
  {
    var (s', done) := Next(s, st);
    if done {
      match st
      case NewBuilding(_, _, id) => UpdateKeepsFaithful(s, s', id, s'.versions[id].chunks);
      case CreateDraft(source, id) =>
        DraftKeepsFaithful(s.versions[source].chunks, s.versions[source].config);
        UpdateKeepsFaithful(s, s', id, s'.versions[id].chunks);
      case Reopen(id, _) => UpdateKeepsFaithful(s, s', id, s'.versions[id].chunks);
      case ReplaceDocument(id, doc, chunks) =>
        ImportKeepsFaithful(s.versions[id].chunks, chunks, doc);
        UpdateKeepsFaithful(s, s', id, s'.versions[id].chunks);
      case MarkFailed(id, k, q) =>
        FailureKeepsFaithful(s.versions[id], k, q);
        UpdateKeepsFaithful(s, s', id, s'.versions[id].chunks);
      case DeleteChapter(id, _) => UpdateKeepsFaithful(s, s', id, s'.versions[id].chunks);
    }
  }

  /** Every stored vector stays the vector of its row's present text, through imports, edits,
      drafts, failures, promotions and deletions: a step breaks this exactly when it is a late
      write, one that is applied although the row's text is not the text that was embedded. */
  lemma StepKeepsFaithfulExactly(s: Store, st: Step)
    requires Faithful(s)
    ensures Faithful(Next(s, st).0) <==> !LateWrite(s, st)
  {
    match st
    case EditQuestion(id, k, edit) => QuestionEditStep(s, id, k, edit);
    case EditVisual(id, k, v, edit) => VisualEditStep(s, id, k, v, edit);
    case WriteEmbedding(_, _, _, _, _) => WriteStepExactly(s, st);
    case Confirm(id, settled, promote) =>
      if id in s.versions {
        ConfirmOutcome(s, id, settled, promote);
        ConfirmKeepsFaithful(s, id, LiveOf(s, id), promote, Next(s, st).0);
      }
    case Approve(_) =>
    case Activate(id, rollback, settled) =>
      if Activatable(s, id, rollback, settled) { UpdateKeepsFaithful(s, Activated(s, id), id, s.versions[id].chunks); }
    case _ => RowsStepKeepsFaithful(s, st);
  }

  /** So a run keeps every vector its row's own at every point exactly when it has no late write. */
  lemma {:induction false} RunKeepsFaithfulExactly(s: Store, steps: seq<Step>)
    requires Faithful(s)
    ensures (forall i | 0 <= i <= |steps| :: Faithful(Run(s, steps[..i]))) <==>
            (forall i | 0 <= i < |steps| :: !LateWrite(Run(s, steps[..i]), steps[i]))
  {
    assert forall i | 0 <= i < |steps| :: steps[..i + 1][..|steps[..i + 1]| - 1] == steps[..i];
    if forall i | 0 <= i <= |steps| :: Faithful(Run(s, steps[..i])) {
      forall i | 0 <= i < |steps| ensures !LateWrite(Run(s, steps[..i]), steps[i]) {
        StepKeepsFaithfulExactly(Run(s, steps[..i]), steps[i]);
        assert Faithful(Run(s, steps[..i + 1]));
      }
    }
    if forall i | 0 <= i < |steps| :: !LateWrite(Run(s, steps[..i]), steps[i]) {
      forall i: nat | i <= |steps| ensures Faithful(Run(s, steps[..i])) { TimelyPrefix(s, steps, i); }
    }
  }

  lemma {:induction false} TimelyPrefix(s: Store, steps: seq<Step>, n: nat)
    requires Faithful(s) && n <= |steps|
    requires forall i | 0 <= i < |steps| :: !LateWrite(Run(s, steps[..i]), steps[i])
    ensures Faithful(Run(s, steps[..n]))
  {
    if n > 0 {
      TimelyPrefix(s, steps, n - 1);
      assert steps[..n][..n - 1] == steps[..n - 1];
      StepKeepsFaithfulExactly(Run(s, steps[..n - 1]), steps[n - 1]);
    }
  }

  /******* When a write is late *******/

  predicate InProgress(s: Store, id: nat) {
    id in s.versions && (s.versions[id].status.Building? || s.versions[id].status.QaReady?)
  }

  // The transactions that can change a text of the version, or make a version of that id.
  predicate Rewrites(st: Step, id: nat) {
    match st
    case NewBuilding(_, _, newId) => newId == id
    case CreateDraft(_, newId) => newId == id
    case ReplaceDocument(i, _, _) => i == id
    case EditQuestion(i, _, _) => i == id
    case EditVisual(i, _, _, _) => i == id
    case _ => false
  }

  // The version as it was read, except for embeddings, counters and status; or no longer writable.
  predicate AsRead(s: Store, id: nat, v: Version) {
    InProgress(s, id) ==> Content(s.versions[id]) == Content(v)
  }

  lemma SameContentSameInput(v: Version, w: Version, k: nat, q: Option<nat>)
    requires Content(v) == Content(w)
    ensures RowExists(v, k, q) <==> RowExists(w, k, q)
    ensures RowExists(v, k, q) ==> RowInput(v, k, q) == RowInput(w, k, q)
  {
    assert |Content(v)| == |v.chunks| && |Content(w)| == |w.chunks|;
    if k < |v.chunks| {
      assert Content(v)[k] == Unembedded(v.chunks[k]) && Content(w)[k] == Unembedded(w.chunks[k]);
      if q.Some? && q.value < |v.chunks[k].questions| {
        assert Content(v)[k].questions[q.value] == v.chunks[k].questions[q.value].(emb := UNEMBEDDED);
        assert Content(w)[k].questions[q.value] == w.chunks[k].questions[q.value].(emb := UNEMBEDDED);
      }
    }
  }

  lemma WriteKeepsContent(v: Version, k: nat, q: Option<nat>, e: Embedding -> Embedding)
    requires RowExists(v, k, q)
    ensures Content(WithEmbedding(v, k, q, e)) == Content(v)
  {
    var w := WithEmbedding(v, k, q, e);
    assert Unembedded(w.chunks[k]) == Unembedded(v.chunks[k]);
  }

  lemma QuietConfirm(s: Store, i: nat, live: Option<nat>, promote: Option<string>, s': Store, id: nat, v: Version)
    requires i in s.versions && (live.Some? ==> live.value != i && live.value in s.versions && s.versions[live.value].status.Active?)
    requires ConfirmsTo(s, i, live, promote, s') && AsRead(s, id, v) && (id in s'.versions ==> id in s.versions)
    ensures AsRead(s', id, v)
  {
    if InProgress(s', id) {
      assert s'.versions[id].chunks == s.versions[id].chunks;
      assert Content(s'.versions[id]) == Content(s.versions[id]);
    }
  }

  lemma QuietWrite(s: Store, i: nat, k: nat, q: Option<nat>, e: Embedding -> Embedding, id: nat, v: Version)
    requires AsRead(s, id, v) && i in s.versions && RowExists(s.versions[i], k, q)
    ensures AsRead(Put(s, i, WithEmbedding(s.versions[i], k, q, e)), id, v)
  {
    WriteKeepsContent(s.versions[i], k, q, e);
  }

  // A version that a quiet step leaves in progress was in progress, with the same texts.
  lemma QuietStep(s: Store, st: Step, id: nat, v: Version)
    requires AsRead(s, id, v) && !Rewrites(st, id)
    ensures AsRead(Next(s, st).0, id, v)
  {
    match st
    case WriteEmbedding(i, k, q, config, input) =>
      if Writable(s, i, k, q, config) { QuietWrite(s, i, k, q, EmbeddedAs(config, input), id, v); }
    case MarkFailed(i, k, q) =>
      if i in s.versions && RowExists(s.versions[i], k, q) { QuietWrite(s, i, k, q, Failing(), id, v); }
    case Confirm(i, settled, promote) =>
      if i in s.versions {
        ConfirmOutcome(s, i, settled, promote);
        QuietConfirm(s, i, LiveOf(s, i), promote, Next(s, st).0, id, v);
      }
    case _ => OtherStep(s, st, id, v);
  }

  lemma OtherStep(s: Store, st: Step, id: nat, v: Version)
    requires AsRead(s, id, v) && !Rewrites(st, id) && !st.Confirm? && !st.WriteEmbedding? && !st.MarkFailed?
    ensures AsRead(Next(s, st).0, id, v)
  {
    if InProgress(Next(s, st).0, id) { assert Content(Next(s, st).0.versions[id]) == Content(s.versions[id]); }
  }

  lemma {:induction false} QuietRun(s: Store, steps: seq<Step>, id: nat, v: Version)
    requires AsRead(s, id, v) && forall st | st in steps :: !Rewrites(st, id)
    ensures AsRead(Run(s, steps), id, v)
  {
    if steps != [] {
      QuietRun(s, steps[..|steps| - 1], id, v);
      QuietStep(Run(s, steps[..|steps| - 1]), steps[|steps| - 1], id, v);
    }
  }

  /** A worker that writes the vector of the text it read is late only if the version's texts were
      edited, or its documents imported again, between its read and its write. */
  lemma OnlyEditsMakeWritesLate(s: Store, steps: seq<Step>, id: nat, k: nat, q: Option<nat>, config: Config)
    requires id in s.versions && RowExists(s.versions[id], k, q)
    requires LateWrite(Run(s, steps), WriteEmbedding(id, k, q, config, RowInput(s.versions[id], k, q)))
    ensures exists st | st in steps :: Rewrites(st, id)
  {
    if forall st | st in steps :: !Rewrites(st, id) {
      QuietRun(s, steps, id, s.versions[id]);
      SameContentSameInput(Run(s, steps).versions[id], s.versions[id], k, q);
    }
  }

  /******* A run *******/

  const DOC := Doc("r", "1")
  const PAGE_INPUT := ChunkInput("c", [])

  // One chunk with one expected question.
  function Page(status: Status, text: string, e: Embedding, f: Embedding, counts: Counts): Version {
    Version(0, CONFIG, status, {DOC}, [Chunk(DOC, "a", "c", e, [Question(text, f)], [])], counts)
  }

  function Made(input: Input): Embedding {
    Embedding(Some(VECTOR_DIMENSIONS), Embedded, "m", "r", "f", Some(input))
  }

  const NONE_MADE := Counts(1, 0, 1, 0)
  const READ := Page(Building, "old", UNEMBEDDED, UNEMBEDDED, NONE_MADE)

  lemma PageCounted(v: Version)
    requires |v.chunks| == 1 && |v.chunks[0].questions| == 1
    ensures var e, f := v.chunks[0].emb, v.chunks[0].questions[0].emb;
            Recounted(v) == v.(counts := Counts(1, if ValidFor(e, v.config) then 1 else 0, 1, if ValidFor(f, v.config) then 1 else 0))
  {
    var k := v.chunks[0];
    assert v.chunks[..0] == [] && k.questions[..0] == [] && [] + k.questions == k.questions;
    assert Questions(v.chunks) == k.questions && v.chunks == [k] && k.questions == [k.questions[0]];
  }

  // The steps before the worker reads, between its read and its write, and after its write.
  const IMPORTED := [NewBuilding(0, CONFIG, 0), ReplaceDocument(0, DOC, READ.chunks)]
  const REWORKED := [EditQuestion(0, 0, ChangeQuestion(0, "new")), WriteEmbedding(0, 0, None, CONFIG, PAGE_INPUT),
                     WriteEmbedding(0, 0, Some(0), CONFIG, QuestionInput("new"))]
  const LATE := WriteEmbedding(0, 0, Some(0), CONFIG, QuestionInput("old"))
  const RELEASED := [Confirm(0, true, None), Approve(0), Activate(0, false, true)]

  function Of(v: Version, approvals: seq<Approval>): Store {
    Store(map[0 := v], approvals)
  }

  // Two known steps in a row.
  lemma TwoSteps(s: Store, a: Step, b: Step, t: Store, t': Store)
    requires Next(s, a).0 == t && Next(t, b).0 == t'
    ensures Run(s, [a, b]) == t'
  {
    assert [a, b][..1] == [a] && [a][..0] == [];
    assert Run(s, [a]) == t;
  }

  lemma PageImported()
    ensures Run(EMPTY, IMPORTED) == Of(READ, [])
  {
    Begins(EMPTY, 0);
    PageReplaced();
    TwoSteps(EMPTY, NewBuilding(0, CONFIG, 0), ReplaceDocument(0, DOC, READ.chunks), Of(FIRST, []), Of(READ, []));
  }

  lemma PageReplaced()
    ensures Next(Of(FIRST, []), ReplaceDocument(0, DOC, READ.chunks)).0 == Of(READ, [])
  {
    PageReplaces();
    ReplacementIs(Of(FIRST, []), 0, DOC, READ.chunks, READ);
    PutOf(FIRST, READ);
  }

  lemma PutOf(v: Version, w: Version)
    ensures Put(Of(v, []), 0, w) == Of(w, [])
  {
  }

  lemma PageReplaces()
    ensures Recounted(FIRST.(docs := FIRST.docs + {DOC},
                             chunks := Keep(FIRST.chunks, OutsideDocument(DOC)) + ImportedRows(READ.chunks, DOC))) == READ
  {
    PageIsImported(READ.chunks);
    assert [] + READ.chunks == READ.chunks && {} + {DOC} == {DOC};
    PageCounted(READ);
  }

  lemma PageIsImported(chunks: seq<Chunk>)
    requires |chunks| == 1 && chunks[0].doc == DOC && chunks[0].emb == UNEMBEDDED && |chunks[0].questions| == 1
    requires chunks[0].questions[0].text != "" && chunks[0].questions[0].emb == UNEMBEDDED
    ensures ImportedRows(chunks, DOC) == chunks
  {
    var k := chunks[0];
    KeptAllExactly(k.questions, HasText());
    assert WithoutVectors(k.questions) == k.questions;
    assert Imported(k, DOC) == k;
  }

  // Three known steps at the end of a run.
  lemma ThreeMore(steps: seq<Step>, a: Step, b: Step, c: Step, t: Store, t1: Store, t2: Store, t3: Store)
    requires Run(EMPTY, steps) == t && Next(t, a).0 == t1 && Next(t1, b).0 == t2 && Next(t2, c).0 == t3
    ensures Run(EMPTY, steps + [a, b, c]) == t3
  {
    StepTo(EMPTY, steps, a, t, t1);
    StepTo(EMPTY, steps + [a], b, t1, t2);
    StepTo(EMPTY, steps + [a] + [b], c, t2, t3);
    assert steps + [a] + [b] + [c] == steps + [a, b, c];
  }

  const EDITED := Page(Building, "new", UNEMBEDDED, UNEMBEDDED, NONE_MADE)
  const HALF_MADE := Page(Building, "new", Made(PAGE_INPUT), UNEMBEDDED, NONE_MADE)
  const MADE := Page(Building, "new", Made(PAGE_INPUT), Made(QuestionInput("new")), NONE_MADE)
  const OVERWRITTEN := Page(Building, "new", Made(PAGE_INPUT), Made(QuestionInput("old")), NONE_MADE)

  lemma PageEdited()
    ensures Next(Of(READ, []), REWORKED[0]).0 == Of(EDITED, [])
  {
    var chunks := READ.chunks;
    assert chunks[0 := chunks[0].(questions := [Question("new", UNEMBEDDED)])] == EDITED.chunks;
    PageCounted(READ.(chunks := EDITED.chunks));
    EditIs(READ, EDITED);
  }

  lemma EditIs(v: Version, w: Version)
    requires v.status.Building? && |v.chunks| == 1 && |v.chunks[0].questions| == 1
    requires Recounted(v.(chunks := [v.chunks[0].(questions := [Question("new", UNEMBEDDED)])])) == w
    ensures Next(Of(v, []), EditQuestion(0, 0, ChangeQuestion(0, "new"))).0 == Of(w, [])
  {
    var k := v.chunks[0];
    assert k.questions[0 := Question("new", UNEMBEDDED)] == [Question("new", UNEMBEDDED)];
    assert v.chunks[0 := k.(questions := [Question("new", UNEMBEDDED)])] == [k.(questions := [Question("new", UNEMBEDDED)])];
  }

  lemma WriteIs(v: Version, q: Option<nat>, input: Input, chunks: seq<Chunk>)
    requires Writable(Of(v, []), 0, 0, q, CONFIG)
    requires WithEmbedding(v, 0, q, EmbeddedAs(CONFIG, input)).chunks == chunks
    ensures Next(Of(v, []), WriteEmbedding(0, 0, q, CONFIG, input)).0 == Of(v.(chunks := chunks), [])
  {
  }

  lemma ChunkWritten()
    ensures Next(Of(EDITED, []), REWORKED[1]).0 == Of(HALF_MADE, [])
  {
    assert WithEmbedding(EDITED, 0, None, EmbeddedAs(CONFIG, PAGE_INPUT)).chunks == HALF_MADE.chunks;
    WriteIs(EDITED, None, PAGE_INPUT, HALF_MADE.chunks);
  }

  lemma QuestionWritten(v: Version, text: string)
    requires v == HALF_MADE || v == MADE
    ensures Next(Of(v, []), WriteEmbedding(0, 0, Some(0), CONFIG, QuestionInput(text))).0
            == Of(Page(Building, "new", Made(PAGE_INPUT), Made(QuestionInput(text)), NONE_MADE), [])
  {
    var w := Page(Building, "new", Made(PAGE_INPUT), Made(QuestionInput(text)), NONE_MADE);
    var questions := v.chunks[0].questions;
    assert questions[0 := Question("new", Made(QuestionInput(text)))] == w.chunks[0].questions;
    assert WithEmbedding(v, 0, Some(0), EmbeddedAs(CONFIG, QuestionInput(text))).chunks == w.chunks;
    WriteIs(v, Some(0), QuestionInput(text), w.chunks);
  }

  lemma PageReworked()
    ensures Run(EMPTY, IMPORTED + REWORKED) == Of(MADE, [])
  {
    PageImported();
    PageEdited();
    ChunkWritten();
    QuestionWritten(HALF_MADE, "new");
    ThreeMore(IMPORTED, REWORKED[0], REWORKED[1], REWORKED[2], Of(READ, []), Of(EDITED, []), Of(HALF_MADE, []), Of(MADE, []));
    assert REWORKED == [REWORKED[0], REWORKED[1], REWORKED[2]];
  }

  function Released(status: Status): Version {
    OVERWRITTEN.(status := status, counts := Counts(1, 1, 1, 1))
  }

  lemma ReleasedIsComplete(status: Status)
    ensures Complete(Released(status)) && Recounted(OVERWRITTEN) == Released(Building)
  {
    var v := Released(status);
    PageCounted(OVERWRITTEN);
    PageCounted(v);
    assert v.chunks[..0] == [] && [] + v.chunks[0].questions == v.chunks[0].questions;
    CompleteExactly(v);
  }

  lemma PageReleased(steps: seq<Step>)
    requires Run(EMPTY, steps) == Of(OVERWRITTEN, [])
    ensures Run(EMPTY, steps + RELEASED) == Of(Released(Active), [Approval(0, true)])
  {
    var ready, approved := Of(Released(QaReady), []), Of(Released(QaReady), [Approval(0, true)]);
    PageConfirmed();
    PageApproved(Released(QaReady));
    PageActivated();
    ThreeMore(steps, RELEASED[0], RELEASED[1], RELEASED[2], Of(OVERWRITTEN, []), ready, approved,
              Of(Released(Active), [Approval(0, true)]));
    assert RELEASED == [RELEASED[0], RELEASED[1], RELEASED[2]];
  }

  lemma PageApproved(v: Version)
    requires v.status.QaReady?
    ensures Next(Of(v, []), Approve(0)).0 == Of(v, [Approval(0, true)])
  {
  }

  lemma PageConfirmed()
    ensures Next(Of(OVERWRITTEN, []), Confirm(0, true, None)).0 == Of(Released(QaReady), [])
  {
    ReleasedIsComplete(Building);
    PutTwice(EMPTY, 0, OVERWRITTEN, Released(QaReady));
  }

  lemma PageActivated()
    ensures Next(Of(Released(QaReady), [Approval(0, true)]), Activate(0, false, true)).0 == Of(Released(Active), [Approval(0, true)])
  {
    var s := Of(Released(QaReady), [Approval(0, true)]);
    ReleasedIsComplete(QaReady);
    assert Activatable(s, 0, false, true);
    assert Activated(s, 0).versions == map[0 := Released(Active)];
  }

  lemma WriteIsLate()
    ensures Faithful(Of(MADE, [])) && LateWrite(Of(MADE, []), LATE)
  {
    assert VisualInputs([]) == [];
    assert "new" != "old";
  }

  lemma OldVectorStays(s: Store)
    requires 0 in s.versions && s.versions[0] == Released(Active)
    ensures !Faithful(s)
  {
    var k := s.versions[0].chunks[0];
    assert k in s.versions[0].chunks && k.questions[0] in k.questions;
    assert "new" != "old";
  }

  lemma PageOverwritten()
    ensures Run(EMPTY, IMPORTED + REWORKED + [LATE] + RELEASED) == Of(Released(Active), [Approval(0, true)])
  {
    PageReworked();
    QuestionWritten(MADE, "old");
    StepTo(EMPTY, IMPORTED + REWORKED, LATE, Of(MADE, []), Of(OVERWRITTEN, []));
    PageReleased(IMPORTED + REWORKED + [LATE]);
  }

  /** From the empty store: a question is edited between a worker's read and its write.  The write
      is late, the counts and the report accept the version, and it goes live with its new text
      under the vector of the old one. */
  lemma LateWriteGoesLive()
    ensures var read, before := Run(EMPTY, IMPORTED), Run(EMPTY, IMPORTED + REWORKED);
            var after := Run(EMPTY, IMPORTED + REWORKED + [LATE] + RELEASED);
            && 0 in read.versions && RowExists(read.versions[0], 0, Some(0)) && RowInput(read.versions[0], 0, Some(0)) == LATE.input
            && Faithful(before) && LateWrite(before, LATE)
            && 0 in after.versions && after.versions[0].status.Active? && Complete(after.versions[0]) && !Faithful(after)
  {
    PageImported();
    PageReworked();
    WriteIsLate();
    PageOverwritten();
    ReleasedIsComplete(Active);
    OldVectorStays(Of(Released(Active), [Approval(0, true)]));
  }
}
