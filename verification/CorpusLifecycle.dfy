/** The life of a textbook corpus version: building -> qa_ready -> active -> superseded, with
    QA approvals, embedding provenance, editable drafts, and chapters promoted into or deleted
    from the live version.  Every transaction is one step on the whole store. */
module CorpusLifecycle {
  import opened Wrappers
  import opened Sequences

  const VECTOR_DIMENSIONS: nat := 512

  datatype Config = Config(model: string, revision: string, dim: nat, fingerprint: string, normalize: bool)

  datatype EmbeddingStatus = NotEmbedded | Embedded | EmbeddingFailed

  // The text a vector was made from, which the input hash stands for: of a chunk its content and its
  // approved visuals, of a question its text.
  datatype Input = ChunkInput(content: string, visuals: seq<(string, string)>) | QuestionInput(text: string)

  datatype Embedding = Embedding(vector: Option<nat>, status: EmbeddingStatus, model: string, revision: string, fingerprint: string,
                                 input: Option<Input>)

  datatype Question = Question(text: string, emb: Embedding)

  datatype Review = PendingReview | ApprovedReview | RejectedReview
  datatype Policy = Always | LlmDecide | Never
  datatype Visual = Visual(title: string, description: string, review: Review, policy: Policy, stored: bool)

  datatype Doc = Doc(resource: string, resourceVersion: string)

  // A chunk row with the questions and visuals that cascade with it.  A blank chapter stands
  // for a NULL or blank chapter_id.
  datatype Chunk = Chunk(doc: Doc, chapter: string, content: string, emb: Embedding,
                         questions: seq<Question>, visuals: seq<Visual>)

  datatype Status = Building | QaReady | Active | Superseded
  datatype Counts = Counts(chunks: nat, embeddedChunks: nat, questions: nat, embeddedQuestions: nat)
  datatype Version = Version(corpus: nat, config: Config, status: Status, docs: set<Doc>, chunks: seq<Chunk>, counts: Counts)

  datatype Approval = Approval(version: nat, valid: bool)

  datatype Store = Store(versions: map<nat, Version>, approvals: seq<Approval>)

  /******* Provenance and completeness *******/

  const UNEMBEDDED := Embedding(None, NotEmbedded, "", "", "", None)

  predicate ValidFor(e: Embedding, c: Config) {
    && e.vector == Some(c.dim) && e.status.Embedded?
    && e.model == c.model && e.revision == c.revision && e.fingerprint == c.fingerprint
  }

  function ChunkEmbedded(c: Config): Chunk -> bool {
    (k: Chunk) => ValidFor(k.emb, c)
  }

  function QuestionEmbedded(c: Config): Question -> bool {
    (q: Question) => ValidFor(q.emb, c)
  }

  function Questions(chunks: seq<Chunk>): seq<Question> {
    if chunks == [] then [] else Questions(chunks[..|chunks| - 1]) + chunks[|chunks| - 1].questions
  }

  // refresh_embedding_counts
  function RealCounts(chunks: seq<Chunk>, c: Config): Counts {
    Counts(|chunks|, |Keep(chunks, ChunkEmbedded(c))|,
           |Questions(chunks)|, |Keep(Questions(chunks), QuestionEmbedded(c))|)
  }

  function Recounted(v: Version): Version {
    v.(counts := RealCounts(v.chunks, v.config))
  }

  // completeness_report with require_building=False; unsettled embedding jobs are passed in.
  predicate Complete(v: Version) {
    && v.config.dim == VECTOR_DIMENSIONS && v.config.fingerprint != ""
    && v.counts.chunks == |v.chunks|
    && v.counts.embeddedChunks == |v.chunks| && |Keep(v.chunks, ChunkEmbedded(v.config))| == |v.chunks|
    && v.counts.questions == |Questions(v.chunks)|
    && v.counts.embeddedQuestions == |Questions(v.chunks)|
    && |Keep(Questions(v.chunks), QuestionEmbedded(v.config))| == |Questions(v.chunks)|
  }

  predicate FullyEmbedded(chunks: seq<Chunk>, c: Config) {
    && (forall k | k in chunks :: ValidFor(k.emb, c))
    && (forall q | q in Questions(chunks) :: ValidFor(q.emb, c))
  }

  /** The report accepts a version exactly when its configuration is usable, every chunk and
      question carries a vector of that configuration, and its counters are the real counts. */
  lemma CompleteExactly(v: Version)
    ensures Complete(v) <==>
      && v.config.dim == VECTOR_DIMENSIONS && v.config.fingerprint != ""
      && FullyEmbedded(v.chunks, v.config)
      && v.counts == RealCounts(v.chunks, v.config)
  {
    KeptAllExactly(v.chunks, ChunkEmbedded(v.config));
    KeptAllExactly(Questions(v.chunks), QuestionEmbedded(v.config));
  }

  lemma {:induction false} QuestionsConcat(s: seq<Chunk>, t: seq<Chunk>)
    ensures Questions(s + t) == Questions(s) + Questions(t)
  {
    if t == [] {
      assert s + t == s;
    } else {
      var front, last := t[..|t| - 1], t[|t| - 1];
      assert (s + t)[..|s + t| - 1] == s + front && (s + t)[|s + t| - 1] == last;
      QuestionsConcat(s, front);
      assert Questions(s) + (Questions(front) + last.questions) == Questions(s) + Questions(front) + last.questions;
    }
  }

  lemma {:induction false} QuestionsOfKept(s: seq<Chunk>, p: Chunk -> bool)
    ensures forall q | q in Questions(Keep(s, p)) :: q in Questions(s)
  {
    if s != [] {
      QuestionsOfKept(s[..|s| - 1], p);
      if p(s[|s| - 1]) {
        QuestionsConcat(Keep(s[..|s| - 1], p), [s[|s| - 1]]);
        assert Questions([s[|s| - 1]]) == s[|s| - 1].questions;
      }
    }
  }

  lemma FullyEmbeddedParts(s: seq<Chunk>, t: seq<Chunk>, p: Chunk -> bool, c: Config)
    ensures FullyEmbedded(s, c) ==> FullyEmbedded(Keep(s, p), c)
    ensures FullyEmbedded(s + t, c) <==> FullyEmbedded(s, c) && FullyEmbedded(t, c)
  {
    QuestionsOfKept(s, p);
    QuestionsConcat(s, t);
    assert FullyEmbedded(s + t, c) ==> FullyEmbedded(s, c) && FullyEmbedded(t, c) by {
      assert forall x | x in s :: x in s + t;
      assert forall x | x in t :: x in s + t;
      assert forall x | x in Questions(s) :: x in Questions(s) + Questions(t);
      assert forall x | x in Questions(t) :: x in Questions(s) + Questions(t);
    }
  }

  /******* Approvals *******/

  predicate Approved(s: Store, id: nat) {
    Approval(id, true) in s.approvals
  }

  function Invalidated(approvals: seq<Approval>, id: nat): (r: seq<Approval>)
    ensures |r| == |approvals|
    ensures forall a | a in r :: a.valid ==> a in approvals && a.version != id
    ensures forall a | a in approvals && a.version != id :: a in r
    ensures forall a | a in r :: a in approvals || a.(valid := true) in approvals
  {
    if approvals == [] then []
    else
      var a := approvals[|approvals| - 1];
      Invalidated(approvals[..|approvals| - 1], id) + [if a.version == id then a.(valid := false) else a]
  }

  function OfOtherVersions(id: nat): Approval -> bool {
    (a: Approval) => a.version != id
  }

  /******* Transactions *******/

  datatype QuestionEdit = DeleteQuestion(q: nat) | ChangeQuestion(q: nat, text: string) | AddQuestion(text: string)

  datatype VisualEdit = VisualEdit(title: Option<string>, description: Option<string>, review: Option<Review>, policy: Option<Policy>)

  datatype Step =
    | NewBuilding(corpus: nat, config: Config, newId: nat)
    | Reopen(id: nat, config: Config)
    | CreateDraft(source: nat, newId: nat)
    | ReplaceDocument(id: nat, doc: Doc, chunks: seq<Chunk>)
    | EditQuestion(id: nat, k: nat, question: QuestionEdit)
    | EditVisual(id: nat, k: nat, v: nat, visual: VisualEdit)
    | WriteEmbedding(id: nat, k: nat, q: Option<nat>, config: Config, input: Input)
    | MarkFailed(id: nat, k: nat, q: Option<nat>)
    | Confirm(id: nat, settled: bool, promote: Option<string>)
    | Approve(id: nat)
    | Activate(id: nat, rollback: bool, settled: bool)
    | DeleteChapter(id: nat, chapter: string)

  function Put(s: Store, id: nat, v: Version): Store {
    s.(versions := s.versions[id := v])
  }

  function WithoutVectors(qs: seq<Question>): (r: seq<Question>)
    ensures |r| == |qs|
  {
    seq(|qs|, i requires 0 <= i < |qs| => qs[i].(emb := UNEMBEDDED))
  }

  function WithValidVectors(qs: seq<Question>, c: Config): (r: seq<Question>)
    ensures |r| == |qs|
  {
    seq(|qs|, i requires 0 <= i < |qs| => if ValidFor(qs[i].emb, c) then qs[i] else qs[i].(emb := UNEMBEDDED))
  }

  // Freshly imported rows carry no vectors.
  function Unembedded(k: Chunk): (r: Chunk)
    ensures |r.questions| == |k.questions|
  {
    k.(emb := UNEMBEDDED, questions := WithoutVectors(k.questions))
  }

  function HasText(): Question -> bool {
    (q: Question) => q.text != ""
  }

  // Blank expected questions are not imported.
  function Imported(k: Chunk, doc: Doc): Chunk {
    Unembedded(k.(doc := doc, questions := Keep(k.questions, HasText())))
  }

  // A draft keeps a row's vector only when its provenance is valid for the source.
  function Sanitized(k: Chunk, c: Config): (r: Chunk)
    ensures |r.questions| == |k.questions|
  {
    k.(emb := if ValidFor(k.emb, c) then k.emb else UNEMBEDDED, questions := WithValidVectors(k.questions, c))
  }

  function ImportedRows(chunks: seq<Chunk>, doc: Doc): seq<Chunk> {
    seq(|chunks|, i requires 0 <= i < |chunks| => Imported(chunks[i], doc))
  }

  function SanitizedRows(chunks: seq<Chunk>, c: Config): seq<Chunk> {
    seq(|chunks|, i requires 0 <= i < |chunks| => Sanitized(chunks[i], c))
  }

  predicate Editable(s: Store, id: nat) {
    id in s.versions && (s.versions[id].status.Building? || s.versions[id].status.QaReady?)
  }

  function OutsideDocument(doc: Doc): Chunk -> bool {
    (k: Chunk) => k.doc != doc
  }

  // _make_building, the edit, _invalidate_approvals and the recount are one transaction.
  function Edited(s: Store, id: nat, chunks: seq<Chunk>): Store
    requires id in s.versions
  {
    Store(s.versions[id := Recounted(s.versions[id].(status := Building, chunks := chunks))],
          Invalidated(s.approvals, id))
  }

  function EditedQuestions(qs: seq<Question>, edit: QuestionEdit): Option<seq<Question>> {
    match edit
    case DeleteQuestion(q) => if q < |qs| then Some(qs[..q] + qs[q + 1..]) else None
    case ChangeQuestion(q, text) => if q < |qs| && text != "" then Some(qs[q := Question(text, UNEMBEDDED)]) else None
    case AddQuestion(text) => if text != "" then Some(qs + [Question(text, UNEMBEDDED)]) else None
  }

  function EditedVisual(v: Visual, edit: VisualEdit): Option<Visual> {
    var title := if edit.title.Some? then edit.title.value else v.title;
    var description := if edit.description.Some? then edit.description.value else v.description;
    if title == "" || description == "" || |title| > 240 || |description| > 4000 then None
    else Some(v.(title := title, description := description,
                 review := if edit.review.Some? then edit.review.value else v.review,
                 policy := if edit.policy.Some? then edit.policy.value else v.policy))
  }

  // Only a changed display policy leaves the chunk's embedding input as it was.
  function ChunkWithVisual(k: Chunk, i: nat, v: Visual): Chunk
    requires i < |k.visuals|
  {
    var before := k.visuals[i];
    var kept := (v.title, v.description, v.review) == (before.title, before.description, before.review);
    k.(visuals := k.visuals[i := v], emb := if kept then k.emb else UNEMBEDDED)
  }

  // The chunk row, or one of its question rows, as the target of an embedding write.
  predicate RowExists(v: Version, k: nat, q: Option<nat>) {
    k < |v.chunks| && (q.Some? ==> q.value < |v.chunks[k].questions|)
  }

  // The guard of the vector writes, which names no input.
  predicate Writable(s: Store, id: nat, k: nat, q: Option<nat>, config: Config) {
    && id in s.versions && s.versions[id].status.Building? && s.versions[id].config == config
    && config.dim == VECTOR_DIMENSIONS && RowExists(s.versions[id], k, q)
  }

  function WithEmbedding(v: Version, k: nat, q: Option<nat>, e: Embedding -> Embedding): Version
    requires RowExists(v, k, q)
  {
    var c := v.chunks[k];
    v.(chunks := v.chunks[k :=
      if q.None? then c.(emb := e(c.emb))
      else c.(questions := c.questions[q.value := c.questions[q.value].(emb := e(c.questions[q.value].emb))])])
  }

  function Failing(): Embedding -> Embedding {
    (e: Embedding) => e.(status := EmbeddingFailed)
  }

  function EmbeddedAs(c: Config, input: Input): Embedding -> Embedding {
    (e: Embedding) => Embedding(Some(VECTOR_DIMENSIONS), Embedded, c.model, c.revision, c.fingerprint, Some(input))
  }

  /******* Promotion and deletion of a chapter *******/

  function ResourceOf(chapter: string): string {
    "jsonl:chapter:" + chapter
  }

  function OutsideChapter(chapter: string): Chunk -> bool {
    (k: Chunk) => k.chapter != chapter
  }

  function InChapter(chapter: string): Chunk -> bool {
    (k: Chunk) => k.chapter == chapter
  }

  function OutsideResource(resource: string): Chunk -> bool {
    (k: Chunk) => k.doc.resource != resource
  }

  // Deleting a chapter's rows also deletes its documents, and a document's rows cascade.
  function ChapterRemoved(v: Version, chapter: string): Version {
    if Keep(v.chunks, InChapter(chapter)) == [] then v
    else v.(chunks := Keep(Keep(v.chunks, OutsideChapter(chapter)), OutsideResource(ResourceOf(chapter))),
            docs := set d | d in v.docs && d.resource != ResourceOf(chapter))
  }

  predicate Promotable(temp: Version, live: Version, chapter: string) {
    && live.status.Active?
    && chapter != "" && (exists k | k in temp.chunks :: k.chapter == chapter)
    && (forall k | k in temp.chunks :: k.chapter == "" || k.chapter == chapter)
    && temp.docs != {} && (forall d | d in temp.docs :: d.resource == ResourceOf(chapter))
    && temp.config == live.config
    && ChapterRemoved(live, chapter).docs * temp.docs == {}
  }

  function Promoted(temp: Version, live: Version, chapter: string): Version {
    var kept := ChapterRemoved(live, chapter);
    Recounted(kept.(chunks := kept.chunks + temp.chunks, docs := kept.docs + temp.docs))
  }

  // The store after moving the temporary version's rows into the live one and dropping it.
  function WithPromotion(s: Store, temp: nat, live: nat, chapter: string): Store
    requires temp in s.versions && live in s.versions
  {
    var promoted := Promoted(s.versions[temp], s.versions[live], chapter);
    Store(map id | id in s.versions && id != temp :: if id == live then promoted else s.versions[id],
          Keep(Invalidated(s.approvals, live), OfOtherVersions(temp)))
  }

  predicate IsActiveOf(s: Store, id: nat, corpus: nat) {
    id in s.versions && s.versions[id].corpus == corpus && s.versions[id].status.Active?
  }

  predicate Servable(v: Version) {
    forall k | k in v.chunks :: forall x | x in k.visuals :: x.review.ApprovedReview? && !x.policy.Never? ==> x.stored
  }

  predicate Activatable(s: Store, id: nat, rollback: bool, settled: bool) {
    && id in s.versions
    && (s.versions[id].status.QaReady? || (rollback && s.versions[id].status.Superseded?))
    && Complete(s.versions[id]) && settled
    && Approved(s, id)
    && Servable(s.versions[id])
  }

  function Activated(s: Store, id: nat): Store
    requires id in s.versions
  {
    s.(versions := map i | i in s.versions ::
         if i == id then s.versions[i].(status := Active)
         else if s.versions[i].corpus == s.versions[id].corpus && s.versions[i].status.Active?
         then s.versions[i].(status := Superseded)
         else s.versions[i])
  }

  // confirm_corpus_completeness: the counters are refreshed whatever happens next, and a
  // promotion that is refused leaves the version qa_ready.
  function Confirmed(s: Store, id: nat, settled: bool, chapter: Option<string>, live: Option<nat>): (Store, bool)
    requires id in s.versions && (live.Some? ==> live.value in s.versions)
  {
    var v := Recounted(s.versions[id]);
    if !(v.status.Building? && Complete(v) && settled) then (Put(s, id, v), false)
    else
      var ready := Put(s, id, v.(status := QaReady));
      if chapter.None? || live.None? then (ready, true)
      else if Promotable(ready.versions[id], ready.versions[live.value], chapter.value)
      then (WithPromotion(ready, id, live.value, chapter.value), true)
      else (ready, false)
  }

  // The active version of the corpus, when it is another one.
  ghost function LiveOf(s: Store, id: nat): (live: Option<nat>)
    requires id in s.versions
    ensures live.Some? ==> live.value != id && IsActiveOf(s, live.value, s.versions[id].corpus)
    ensures live.None? ==> forall i | i != id :: !IsActiveOf(s, i, s.versions[id].corpus)
  {
    if exists i :: i != id && IsActiveOf(s, i, s.versions[id].corpus)
    then var i :| i != id && IsActiveOf(s, i, s.versions[id].corpus); Some(i)
    else None
  }

  ghost function Next(s: Store, st: Step): (Store, bool) {
    match st
    case NewBuilding(corpus, config, newId) =>
      if newId in s.versions then (s, false)
      else (Put(s, newId, Version(corpus, config, Building, {}, [], Counts(0, 0, 0, 0))), true)
    case Reopen(id, config) =>
      if id !in s.versions || !s.versions[id].status.QaReady? || s.versions[id].config != config then (s, false)
      else (Store(s.versions[id := s.versions[id].(status := Building)], Invalidated(s.approvals, id)), true)
    case CreateDraft(source, newId) =>
      if newId in s.versions || source !in s.versions || !s.versions[source].status.Active? then (s, false)
      else
        var v := s.versions[source];
        var chunks := SanitizedRows(v.chunks, v.config);
        (Put(s, newId, Recounted(v.(status := Building, chunks := chunks))), true)
    case ReplaceDocument(id, doc, chunks) =>
      if id !in s.versions || !s.versions[id].status.Building? then (s, false)
      else
        var v := s.versions[id];
        var kept := Keep(v.chunks, OutsideDocument(doc));
        (Put(s, id, Recounted(v.(docs := v.docs + {doc}, chunks := kept + ImportedRows(chunks, doc)))), true)
    case EditQuestion(id, k, edit) =>
      if !Editable(s, id) || k >= |s.versions[id].chunks| then (s, false)
      else
        var chunks := s.versions[id].chunks;
        var questions := EditedQuestions(chunks[k].questions, edit);
        if questions.None? then (s, false)
        else (Edited(s, id, chunks[k := chunks[k].(questions := questions.value)]), true)
    case EditVisual(id, k, v, edit) =>
      if !Editable(s, id) || k >= |s.versions[id].chunks| || v >= |s.versions[id].chunks[k].visuals| then (s, false)
      else
        var chunks := s.versions[id].chunks;
        var visual := EditedVisual(chunks[k].visuals[v], edit);
        if visual.None? then (s, false)
        else (Edited(s, id, chunks[k := ChunkWithVisual(chunks[k], v, visual.value)]), true)
    case WriteEmbedding(id, k, q, config, input) =>
      if Writable(s, id, k, q, config)
      then (Put(s, id, WithEmbedding(s.versions[id], k, q, EmbeddedAs(config, input))), true)
      else (s, false)
    case MarkFailed(id, k, q) =>
      if id in s.versions && RowExists(s.versions[id], k, q)
      then (Put(s, id, WithEmbedding(s.versions[id], k, q, Failing())), true)
      else (s, false)
    case Confirm(id, settled, promote) =>
      if id !in s.versions then (s, false) else Confirmed(s, id, settled, promote, LiveOf(s, id))
    case Approve(id) =>
      if id !in s.versions || !s.versions[id].status.QaReady? then (s, false)
      else (s.(approvals := s.approvals + [Approval(id, true)]), true)
    case Activate(id, rollback, settled) =>
      if Activatable(s, id, rollback, settled) then (Activated(s, id), true) else (s, false)
    case DeleteChapter(id, chapter) =>
      if id !in s.versions || !s.versions[id].status.Active? then (s, false)
      else (Store(s.versions[id := Recounted(ChapterRemoved(s.versions[id], chapter))],
                  Invalidated(s.approvals, id)), true)
  }

  // Runs are read from their last step.
  ghost function Run(s: Store, steps: seq<Step>): Store {
    if steps == [] then s else Next(Run(s, steps[..|steps| - 1]), steps[|steps| - 1]).0
  }

  /******* The live version *******/

  predicate OneActive(s: Store) {
    forall i, j | i in s.versions && j in s.versions && s.versions[i].status.Active? && s.versions[j].status.Active?
                  && s.versions[i].corpus == s.versions[j].corpus :: i == j
  }

  predicate LiveComplete(s: Store) {
    forall i | i in s.versions && s.versions[i].status.Active? :: Complete(s.versions[i])
  }

  predicate LiveSound(s: Store) {
    OneActive(s) && LiveComplete(s)
  }

  // The one unguarded write: an embedding failure recorded on a row of a live version.
  predicate SpoilsLive(s: Store, st: Step) {
    st.MarkFailed? && st.id in s.versions && s.versions[st.id].status.Active? && RowExists(s.versions[st.id], st.k, st.q)
  }

  lemma OffLineUpdateKeepsLive(s: Store, s': Store, id: nat, v: Version)
    requires LiveSound(s) && !v.status.Active?
    requires id in s.versions ==> !s.versions[id].status.Active?
    requires s'.versions == s.versions[id := v]
    ensures LiveSound(s')
  {
  }

  lemma RemovalKeepsComplete(v: Version, chapter: string)
    requires Complete(v)
    ensures Complete(Recounted(ChapterRemoved(v, chapter)))
  {
    CompleteExactly(v);
    var outside := Keep(v.chunks, OutsideChapter(chapter));
    FullyEmbeddedParts(v.chunks, [], OutsideChapter(chapter), v.config);
    FullyEmbeddedParts(outside, [], OutsideResource(ResourceOf(chapter)), v.config);
    CompleteExactly(Recounted(ChapterRemoved(v, chapter)));
  }

  /** A promotion into a complete version leaves it complete exactly when every promoted row is
      embedded; that the temporary version was confirmed in the same step is what gives this. */
  lemma PromotionKeepsComplete(temp: Version, live: Version, chapter: string)
    requires Complete(live) && temp.config == live.config
    ensures Complete(Promoted(temp, live, chapter)) <==> FullyEmbedded(temp.chunks, temp.config)
  {
    RemovalKeepsComplete(live, chapter);
    var kept := ChapterRemoved(live, chapter);
    CompleteExactly(Recounted(kept));
    FullyEmbeddedParts(kept.chunks, temp.chunks, OutsideChapter(chapter), live.config);
    CompleteExactly(Promoted(temp, live, chapter));
  }

  lemma PromotionKeepsLive(s: Store, temp: nat, live: nat, chapter: string)
    requires LiveSound(s) && temp in s.versions && live in s.versions && temp != live
    requires Complete(s.versions[temp]) && Promotable(s.versions[temp], s.versions[live], chapter)
    ensures LiveSound(WithPromotion(s, temp, live, chapter))
  {
    CompleteExactly(s.versions[temp]);
    PromotionKeepsComplete(s.versions[temp], s.versions[live], chapter);
  }

  lemma ConfirmKeepsLive(s: Store, id: nat, settled: bool, chapter: Option<string>)
    requires LiveSound(s) && id in s.versions
    ensures LiveSound(Confirmed(s, id, settled, chapter, LiveOf(s, id)).0)
  {
    var live := LiveOf(s, id);
    var v := Recounted(s.versions[id]);
    if v.status.Active? {
      CompleteExactly(s.versions[id]);
      assert Put(s, id, v) == s;
    } else if v.status.Building? && Complete(v) && settled {
      var ready := Put(s, id, v.(status := QaReady));
      OffLineUpdateKeepsLive(s, ready, id, v.(status := QaReady));
      if chapter.Some? && live.Some? && Promotable(ready.versions[id], ready.versions[live.value], chapter.value) {
        PromotionKeepsLive(ready, id, live.value, chapter.value);
      }
    } else {
      OffLineUpdateKeepsLive(s, Put(s, id, v), id, v);
    }
  }

  lemma ActivationKeepsLive(s: Store, id: nat, rollback: bool, settled: bool)
    requires LiveSound(s) && Activatable(s, id, rollback, settled)
    ensures LiveSound(Activated(s, id))
  {
    var s' := Activated(s, id);
    forall i | i in s'.versions && s'.versions[i].status.Active? ensures Complete(s'.versions[i]) {
      if i != id { assert s'.versions[i] == s.versions[i]; }
    }
  }

  lemma FailureMarkExactly(s: Store, id: nat, k: nat, q: Option<nat>)
    requires LiveSound(s)
    ensures LiveSound(Next(s, MarkFailed(id, k, q)).0) <==> !SpoilsLive(s, MarkFailed(id, k, q))
  {
    var s' := Next(s, MarkFailed(id, k, q)).0;
    if id in s.versions && RowExists(s.versions[id], k, q) {
      var v := WithEmbedding(s.versions[id], k, q, Failing());
      if v.status.Active? {
        assert v.chunks[k] in v.chunks;
        if q.Some? { QuestionAt(v.chunks, k, q.value); }
        CompleteExactly(v);
        assert !Complete(v) && s'.versions[id] == v;
      } else {
        OffLineUpdateKeepsLive(s, s', id, v);
      }
    }
  }

  lemma {:induction false} QuestionAt(chunks: seq<Chunk>, k: nat, q: nat)
    requires k < |chunks| && q < |chunks[k].questions|
    ensures chunks[k].questions[q] in Questions(chunks)
  {
    if k < |chunks| - 1 { QuestionAt(chunks[..|chunks| - 1], k, q); }
  }

  lemma OffLineStepKeepsLive(s: Store, st: Step)
    requires LiveSound(s)
    requires st.NewBuilding? || st.CreateDraft? || st.Reopen? || st.ReplaceDocument? || st.WriteEmbedding?
    ensures LiveSound(Next(s, st).0)
  {
    var (s', done) := Next(s, st);
    if done {
      match st
      case NewBuilding(_, _, id) => OffLineUpdateKeepsLive(s, s', id, s'.versions[id]);
      case CreateDraft(_, id) => OffLineUpdateKeepsLive(s, s', id, s'.versions[id]);
      case Reopen(id, _) => OffLineUpdateKeepsLive(s, s', id, s'.versions[id]);
      case ReplaceDocument(id, _, _) => OffLineUpdateKeepsLive(s, s', id, s'.versions[id]);
      case WriteEmbedding(id, _, _, _, _) => OffLineUpdateKeepsLive(s, s', id, s'.versions[id]);
    }
  }

  lemma EditKeepsLive(s: Store, id: nat, chunks: seq<Chunk>)
    requires LiveSound(s) && Editable(s, id)
    ensures LiveSound(Edited(s, id, chunks))
  {
    OffLineUpdateKeepsLive(s, Edited(s, id, chunks), id, Edited(s, id, chunks).versions[id]);
  }

  lemma DeletionKeepsLive(s: Store, id: nat, chapter: string)
    requires LiveSound(s)
    ensures LiveSound(Next(s, DeleteChapter(id, chapter)).0)
  {
    if id in s.versions && s.versions[id].status.Active? {
      RemovalKeepsComplete(s.versions[id], chapter);
    }
  }

  /** At most one live version per corpus, every live row embedded under its version's
      configuration, and true counters: every step keeps this, except that the unguarded failure
      mark spoils it exactly when it hits a row of a live version. */
  lemma StepKeepsLiveExactly(s: Store, st: Step)
    requires LiveSound(s)
    ensures LiveSound(Next(s, st).0) <==> !SpoilsLive(s, st)
  {
    match st
    case EditQuestion(id, k, edit) =>
      if Next(s, st).1 { EditKeepsLive(s, id, Next(s, st).0.versions[id].chunks); }
    case EditVisual(id, k, v, edit) =>
      if Next(s, st).1 { EditKeepsLive(s, id, Next(s, st).0.versions[id].chunks); }
    case MarkFailed(id, k, q) => FailureMarkExactly(s, id, k, q);
    case Confirm(id, settled, promote) =>
      if id in s.versions { ConfirmKeepsLive(s, id, settled, promote); }
    case Approve(_) =>
    case Activate(id, rollback, settled) =>
      if Activatable(s, id, rollback, settled) { ActivationKeepsLive(s, id, rollback, settled); }
    case DeleteChapter(id, chapter) => DeletionKeepsLive(s, id, chapter);
    case _ => OffLineStepKeepsLive(s, st);
  }

  /** So a whole run keeps its live versions sound at every point exactly when no failure mark in
      it ever lands on a row of a version that is live at that point. */
  lemma {:induction false} RunKeepsLiveExactly(s: Store, steps: seq<Step>)
    requires LiveSound(s)
    ensures (forall i | 0 <= i <= |steps| :: LiveSound(Run(s, steps[..i]))) <==>
            (forall i | 0 <= i < |steps| :: !SpoilsLive(Run(s, steps[..i]), steps[i]))
  {
    assert forall i | 0 <= i < |steps| :: steps[..i + 1][..|steps[..i + 1]| - 1] == steps[..i];
    if forall i | 0 <= i <= |steps| :: LiveSound(Run(s, steps[..i])) {
      forall i | 0 <= i < |steps| ensures !SpoilsLive(Run(s, steps[..i]), steps[i]) {
        StepKeepsLiveExactly(Run(s, steps[..i]), steps[i]);
        assert LiveSound(Run(s, steps[..i + 1]));
      }
    }
    if forall i | 0 <= i < |steps| :: !SpoilsLive(Run(s, steps[..i]), steps[i]) {
      forall i: nat | i <= |steps| ensures LiveSound(Run(s, steps[..i])) { UnspoiledPrefix(s, steps, i); }
    }
  }

  lemma {:induction false} UnspoiledPrefix(s: Store, steps: seq<Step>, n: nat)
    requires LiveSound(s) && n <= |steps|
    requires forall i | 0 <= i < |steps| :: !SpoilsLive(Run(s, steps[..i]), steps[i])
    ensures LiveSound(Run(s, steps[..n]))
  {
    if n > 0 {
      UnspoiledPrefix(s, steps, n - 1);
      assert steps[..n][..n - 1] == steps[..n - 1];
      StepKeepsLiveExactly(Run(s, steps[..n - 1]), steps[n - 1]);
    }
  }

  /******* Approvals *******/

  predicate ApprovalsSettled(s: Store) {
    forall a | a in s.approvals :: a.version in s.versions && (a.valid ==> !s.versions[a.version].status.Building?)
  }

  // What a QA approval is about: every row, without its embedding.
  function Content(v: Version): seq<Chunk> {
    seq(|v.chunks|, i requires 0 <= i < |v.chunks| => Unembedded(v.chunks[i]))
  }

  lemma PromotionKeepsApprovals(s: Store, temp: nat, live: nat, chapter: string)
    requires ApprovalsSettled(s) && temp in s.versions && live in s.versions && temp != live
    requires s.versions[live].status.Active?
    ensures ApprovalsSettled(WithPromotion(s, temp, live, chapter))
  {
    var s' := WithPromotion(s, temp, live, chapter);
    forall a | a in s'.approvals
      ensures a.version in s'.versions && (a.valid ==> !s'.versions[a.version].status.Building?)
    {
      assert a in Invalidated(s.approvals, live);
    }
  }

  lemma UpdateKeepsApprovals(s: Store, id: nat, v: Version)
    requires ApprovalsSettled(s)
    requires v.status.Building? ==> !Approved(s, id)
    ensures ApprovalsSettled(Put(s, id, v))
  {
  }

  lemma BuildingIsUnapproved(s: Store, id: nat)
    requires ApprovalsSettled(s) && (id in s.versions ==> s.versions[id].status.Building?)
    ensures !Approved(s, id)
  {
  }

  lemma InvalidationKeepsApprovals(s: Store, id: nat, v: Version)
    requires ApprovalsSettled(s) && id in s.versions
    ensures ApprovalsSettled(Store(s.versions[id := v], Invalidated(s.approvals, id)))
    ensures !Approved(Store(s.versions[id := v], Invalidated(s.approvals, id)), id)
  {
    var invalidated := s.(approvals := Invalidated(s.approvals, id));
    assert ApprovalsSettled(invalidated);
    UpdateKeepsApprovals(invalidated, id, v);
  }

  lemma ConfirmKeepsApprovals(s: Store, id: nat, settled: bool, chapter: Option<string>)
    requires ApprovalsSettled(s) && id in s.versions
    ensures ApprovalsSettled(Confirmed(s, id, settled, chapter, LiveOf(s, id)).0)
  {
    var live := LiveOf(s, id);
    var v := Recounted(s.versions[id]);
    if v.status.Building? { BuildingIsUnapproved(s, id); }
    UpdateKeepsApprovals(s, id, v);
    var ready := Put(s, id, v.(status := QaReady));
    UpdateKeepsApprovals(s, id, v.(status := QaReady));
    if chapter.Some? && live.Some? && Promotable(ready.versions[id], ready.versions[live.value], chapter.value) {
      PromotionKeepsApprovals(ready, id, live.value, chapter.value);
    }
  }

  lemma WriteKeepsApprovals(s: Store, st: Step)
    requires ApprovalsSettled(s)
    requires st.NewBuilding? || st.CreateDraft? || st.ReplaceDocument? || st.WriteEmbedding? || st.MarkFailed?
    ensures ApprovalsSettled(Next(s, st).0)
  {
    if Next(s, st).1 {
      match st
      case NewBuilding(_, _, id) => BuildingIsUnapproved(s, id);
      case CreateDraft(_, id) => BuildingIsUnapproved(s, id);
      case ReplaceDocument(id, _, _) => BuildingIsUnapproved(s, id);
      case WriteEmbedding(id, _, _, _, _) => BuildingIsUnapproved(s, id);
      case MarkFailed(id, k, q) =>
        if s.versions[id].status.Building? { BuildingIsUnapproved(s, id); }
        UpdateKeepsApprovals(s, id, WithEmbedding(s.versions[id], k, q, Failing()));
    }
  }

  /** A version with a standing approval is never building, in every run. */
  lemma StepKeepsApprovals(s: Store, st: Step)
    requires ApprovalsSettled(s)
    ensures ApprovalsSettled(Next(s, st).0)
  {
    match st
    case Reopen(id, _) =>
      if Next(s, st).1 { InvalidationKeepsApprovals(s, id, Next(s, st).0.versions[id]); }
    case EditQuestion(id, _, _) =>
      if Next(s, st).1 { InvalidationKeepsApprovals(s, id, Next(s, st).0.versions[id]); }
    case EditVisual(id, _, _, _) =>
      if Next(s, st).1 { InvalidationKeepsApprovals(s, id, Next(s, st).0.versions[id]); }
    case Confirm(id, settled, promote) =>
      if id in s.versions { ConfirmKeepsApprovals(s, id, settled, promote); }
    case Approve(_) =>
    case Activate(_, _, _) =>
    case DeleteChapter(id, _) =>
      if Next(s, st).1 { InvalidationKeepsApprovals(s, id, Next(s, st).0.versions[id]); }
    case _ => WriteKeepsApprovals(s, st);
  }

  lemma {:induction false} RunKeepsApprovals(s: Store, steps: seq<Step>)
    requires ApprovalsSettled(s)
    ensures ApprovalsSettled(Run(s, steps))
  {
    if steps != [] {
      RunKeepsApprovals(s, steps[..|steps| - 1]);
      StepKeepsApprovals(Run(s, steps[..|steps| - 1]), steps[|steps| - 1]);
    }
  }

  lemma FailureMarkKeepsContent(v: Version, k: nat, q: Option<nat>)
    requires RowExists(v, k, q)
    ensures Content(WithEmbedding(v, k, q, Failing())) == Content(v)
  {
    var w := WithEmbedding(v, k, q, Failing());
    assert Unembedded(w.chunks[k]) == Unembedded(v.chunks[k]);
  }

  /** While an approval stands, no step changes what was approved; and a step that gives a
      version a standing approval is its review, which changes no version. */
  lemma ApprovalFreezesContent(s: Store, st: Step, id: nat)
    requires ApprovalsSettled(s) && Approved(Next(s, st).0, id)
    ensures id in s.versions && id in Next(s, st).0.versions
    ensures Approved(s, id) ==> Content(Next(s, st).0.versions[id]) == Content(s.versions[id])
    ensures !Approved(s, id) ==> st == Approve(id) && s.versions[id].status.QaReady? && Next(s, st).0.versions == s.versions
  {
    if st.Confirm? {
      if st.id in s.versions { ConfirmFreezesContent(s, st.id, st.settled, st.promote, id); }
    } else if Approved(s, id) {
      StandingApprovalFreezes(s, st, id);
    }
  }

  lemma StandingApprovalFreezes(s: Store, st: Step, id: nat)
    requires ApprovalsSettled(s) && Approved(s, id) && Approved(Next(s, st).0, id) && !st.Confirm?
    ensures id in Next(s, st).0.versions && Content(Next(s, st).0.versions[id]) == Content(s.versions[id])
  {
    match st
    case MarkFailed(i, k, q) =>
      if i == id && Next(s, st).1 { FailureMarkKeepsContent(s.versions[id], k, q); }
    case _ =>
  }

  // Recounted, or qa_ready too when it was building, or promoted as well.
  predicate ConfirmsTo(s: Store, i: nat, live: Option<nat>, promote: Option<string>, s': Store)
    requires i in s.versions && (live.Some? ==> live.value in s.versions)
  {
    var v := Recounted(s.versions[i]);
    var ready := Put(s, i, v.(status := QaReady));
    s' == Put(s, i, v)
    || (v.status.Building?
        && (s' == ready || (live.Some? && promote.Some? && s' == WithPromotion(ready, i, live.value, promote.value))))
  }

  lemma ConfirmedOutcome(s: Store, i: nat, settled: bool, promote: Option<string>, live: Option<nat>)
    requires i in s.versions && (live.Some? ==> live.value in s.versions)
    ensures ConfirmsTo(s, i, live, promote, Confirmed(s, i, settled, promote, live).0)
  {
  }

  lemma ConfirmOutcome(s: Store, i: nat, settled: bool, promote: Option<string>)
    requires i in s.versions
    ensures ConfirmsTo(s, i, LiveOf(s, i), promote, Next(s, Confirm(i, settled, promote)).0)
  {
    ConfirmedOutcome(s, i, settled, promote, LiveOf(s, i));
  }

  predicate Untouched(s: Store, s': Store, id: nat) {
    && id in s.versions && id in s'.versions && s'.versions[id].status == s.versions[id].status
    && (Approved(s', id) ==> Approved(s, id) && s'.versions[id] == s.versions[id])
  }

  lemma PromotionElsewhere(s: Store, temp: nat, live: nat, chapter: string, id: nat)
    requires temp in s.versions && live in s.versions && id in s.versions && id != temp && temp != live
    ensures Untouched(s, WithPromotion(s, temp, live, chapter), id)
  {
    assert id == live ==> Approval(id, true) !in Invalidated(s.approvals, live);
  }

  // A confirmation leaves every version but the one it confirms alone, or unapproved.
  lemma ConfirmElsewhere(s: Store, i: nat, live: Option<nat>, promote: Option<string>, s': Store, id: nat)
    requires i in s.versions && (live.Some? ==> live.value in s.versions && live.value != i)
    requires ConfirmsTo(s, i, live, promote, s') && id in s.versions && id != i
    ensures Untouched(s, s', id)
  {
    if promote.Some? && live.Some? {
      var ready := Put(s, i, Recounted(s.versions[i]).(status := QaReady));
      PromotionElsewhere(ready, i, live.value, promote.value, id);
    }
  }

  lemma ConfirmFreezesContent(s: Store, i: nat, settled: bool, promote: Option<string>, id: nat)
    requires ApprovalsSettled(s) && i in s.versions
    requires Approved(Next(s, Confirm(i, settled, promote)).0, id)
    ensures Approved(s, id) && id in s.versions && id in Next(s, Confirm(i, settled, promote)).0.versions
    ensures Content(Next(s, Confirm(i, settled, promote)).0.versions[id]) == Content(s.versions[id])
  {
    var s' := Next(s, Confirm(i, settled, promote)).0;
    assert Approved(s, id);
    if id != i {
      ConfirmOutcome(s, i, settled, promote);
      ConfirmElsewhere(s, i, LiveOf(s, i), promote, s', id);
    } else {
      assert s' == Put(s, i, Recounted(s.versions[i]));
    }
  }

  /** In every run, a version that ends with a standing approval was reviewed at some point of
      it, while qa_ready, and its content is exactly what it was at that review. */
  lemma {:induction false} ApprovedContentIsReviewedContent(s: Store, steps: seq<Step>, id: nat) returns (at: nat)
    requires ApprovalsSettled(s) && !Approved(s, id) && Approved(Run(s, steps), id)
    ensures at < |steps| && steps[at] == Approve(id)
    ensures id in Run(s, steps[..at]).versions && Run(s, steps[..at]).versions[id].status.QaReady?
    ensures id in Run(s, steps).versions
    ensures Content(Run(s, steps).versions[id]) == Content(Run(s, steps[..at]).versions[id])
  {
    var n := |steps| - 1;
    var before := Run(s, steps[..n]);
    RunKeepsApprovals(s, steps[..n]);
    ApprovalFreezesContent(before, steps[n], id);
    if Approved(before, id) {
      at := ApprovedContentIsReviewedContent(s, steps[..n], id);
      assert steps[..n][..at] == steps[..at];
    } else {
      at := n;
    }
  }

  /** So an activation, rollbacks included, only ever makes live what QA approved. */
  lemma ActivationMakesReviewedContentLive(s: Store, steps: seq<Step>, id: nat, rollback: bool, settled: bool) returns (at: nat)
    requires ApprovalsSettled(s) && !Approved(s, id)
    requires Next(Run(s, steps), Activate(id, rollback, settled)).1
    ensures at < |steps| && steps[at] == Approve(id) && id in Run(s, steps[..at]).versions
    ensures var live := Next(Run(s, steps), Activate(id, rollback, settled)).0;
            id in live.versions && live.versions[id].status.Active?
            && Content(live.versions[id]) == Content(Run(s, steps[..at]).versions[id])
  {
    at := ApprovedContentIsReviewedContent(s, steps, id);
  }

  /******* Changed live versions *******/

  // Live or retired, and without a standing approval.
  predicate Unapprovable(s: Store, id: nat) {
    && id in s.versions && !Approved(s, id)
    && (s.versions[id].status.Active? || s.versions[id].status.Superseded?)
  }

  lemma StepKeepsUnapprovable(s: Store, st: Step, id: nat)
    requires ApprovalsSettled(s) && Unapprovable(s, id)
    ensures Unapprovable(Next(s, st).0, id)
    ensures s.versions[id].status.Superseded? ==> Next(s, st).0.versions[id].status.Superseded?
  {
    if Approved(Next(s, st).0, id) { ApprovalFreezesContent(s, st, id); }
    match st
    case Confirm(i, settled, promote) =>
      if i in s.versions && i != id {
        ConfirmOutcome(s, i, settled, promote);
        ConfirmElsewhere(s, i, LiveOf(s, i), promote, Next(s, st).0, id);
      }
    case _ =>
  }

  /** A live version changed by a deletion has lost its approval, and so has one changed by a
      promotion, which also removes the temporary version... */
  lemma DeletionUnapproves(s: Store, live: nat, chapter: string)
    requires live in s.versions && s.versions[live].status.Active?
    ensures Unapprovable(Next(s, DeleteChapter(live, chapter)).0, live)
  {
    assert Approval(live, true) !in Invalidated(s.approvals, live);
  }

  lemma PromotionUnapproves(s: Store, temp: nat, live: nat, chapter: string)
    requires live in s.versions && s.versions[live].status.Active? && temp in s.versions && temp != live
    ensures Unapprovable(WithPromotion(s, temp, live, chapter), live)
    ensures temp !in WithPromotion(s, temp, live, chapter).versions
  {
    assert Approval(live, true) !in Invalidated(s.approvals, live);
  }

  /** ...and from then on, in every run, it stays without one and is never made live again once
      another version has superseded it. */
  lemma {:induction false} ChangedVersionsAreNeverReactivated(s: Store, steps: seq<Step>, id: nat)
    requires ApprovalsSettled(s) && Unapprovable(s, id)
    ensures Unapprovable(Run(s, steps), id)
    ensures s.versions[id].status.Superseded? ==> Run(s, steps).versions[id].status.Superseded?
    ensures !Next(Run(s, steps), Activate(id, true, true)).1
  {
    if steps != [] {
      ChangedVersionsAreNeverReactivated(s, steps[..|steps| - 1], id);
      RunKeepsApprovals(s, steps[..|steps| - 1]);
      StepKeepsUnapprovable(Run(s, steps[..|steps| - 1]), steps[|steps| - 1], id);
    }
  }

  /******* What a promotion moves *******/

  // Rows of other chapters filed under the chapter's own document, which its deletion takes along.
  predicate Misfiled(live: Version, chapter: string) {
    && (exists k | k in live.chunks :: k.chapter == chapter)
    && (exists k | k in live.chunks :: k.chapter != chapter && k.doc.resource == ResourceOf(chapter))
  }

  predicate CarriesBlankChapters(temp: Version) {
    exists k | k in temp.chunks :: k.chapter == ""
  }

  lemma RowsOutsideAfterRemoval(live: Version, chapter: string)
    ensures Keep(ChapterRemoved(live, chapter).chunks, InChapter(chapter)) == []
    ensures Keep(ChapterRemoved(live, chapter).chunks, OutsideChapter(chapter)) == Keep(live.chunks, OutsideChapter(chapter))
            <==> !Misfiled(live, chapter)
  {
    var outside := Keep(live.chunks, OutsideChapter(chapter));
    var kept := ChapterRemoved(live, chapter).chunks;
    if Keep(live.chunks, InChapter(chapter)) == [] {
      assert forall k | k in live.chunks :: k.chapter == chapter ==> k in Keep(live.chunks, InChapter(chapter));
    } else {
      assert exists k | k in live.chunks :: k.chapter == chapter by {
        assert Keep(live.chunks, InChapter(chapter))[0] in Keep(live.chunks, InChapter(chapter));
      }
      KeptAllExactly(outside, OutsideResource(ResourceOf(chapter)));
      KeptAllExactly(kept, OutsideChapter(chapter));
      KeepNone(kept, InChapter(chapter));
    }
  }

  // The live version's rows of other chapters that outlast the removal of its chapter.
  function Staying(live: Version, chapter: string): seq<Chunk> {
    Keep(ChapterRemoved(live, chapter).chunks, OutsideChapter(chapter))
  }

  lemma BlankRowsAreMoved(temp: Version, chapter: string)
    requires chapter != "" && forall k | k in temp.chunks :: k.chapter == "" || k.chapter == chapter
    ensures Keep(temp.chunks, OutsideChapter(chapter)) == [] <==> !CarriesBlankChapters(temp)
  {
    var moved := Keep(temp.chunks, OutsideChapter(chapter));
    if CarriesBlankChapters(temp) {
      var k :| k in temp.chunks && k.chapter == "";
      assert k in moved;
    } else {
      KeepNone(temp.chunks, OutsideChapter(chapter));
    }
  }

  /** A promotion replaces the rows of the named chapter by the temporary version's rows of that
      chapter.  Of the other chapters' rows it keeps those that stay and adds those that the
      temporary version carries: none is lost and none is added exactly when the live version has
      no misfiled row and the temporary one no row with a blank chapter. */
  lemma PromotionSwapsTheChapterExactly(temp: Version, live: Version, chapter: string)
    requires Promotable(temp, live, chapter)
    ensures var after, outside := Promoted(temp, live, chapter).chunks, Keep(live.chunks, OutsideChapter(chapter));
            var moved := Keep(temp.chunks, OutsideChapter(chapter));
            && Keep(after, InChapter(chapter)) == Keep(temp.chunks, InChapter(chapter))
            && Keep(after, OutsideChapter(chapter)) == Staying(live, chapter) + moved
            && (Staying(live, chapter) == outside && moved == [] <==> !Misfiled(live, chapter) && !CarriesBlankChapters(temp))
            && (Keep(after, OutsideChapter(chapter)) == outside ==> (Misfiled(live, chapter) <==> CarriesBlankChapters(temp)))
  {
    var kept := ChapterRemoved(live, chapter).chunks;
    RowsOutsideAfterRemoval(live, chapter);
    BlankRowsAreMoved(temp, chapter);
    KeepConcat(kept, temp.chunks, InChapter(chapter));
    KeepConcat(kept, temp.chunks, OutsideChapter(chapter));
    assert [] + Keep(temp.chunks, InChapter(chapter)) == Keep(temp.chunks, InChapter(chapter));
    if !CarriesBlankChapters(temp) { assert Staying(live, chapter) + [] == Staying(live, chapter); }
  }

  /** A deletion removes exactly the chapter's rows when no row of another chapter is misfiled. */
  lemma DeletionRemovesTheChapterExactly(live: Version, chapter: string)
    ensures Keep(ChapterRemoved(live, chapter).chunks, InChapter(chapter)) == []
    ensures ChapterRemoved(live, chapter).chunks == Keep(live.chunks, OutsideChapter(chapter)) <==> !Misfiled(live, chapter)
  {
    RowsOutsideAfterRemoval(live, chapter);
    var kept := ChapterRemoved(live, chapter).chunks;
    if Keep(live.chunks, InChapter(chapter)) == [] {
      assert forall k | k in live.chunks :: InChapter(chapter)(k) ==> k in Keep(live.chunks, InChapter(chapter));
      KeptAllExactly(live.chunks, OutsideChapter(chapter));
    }
    KeptAllExactly(kept, OutsideChapter(chapter));
  }

  /******* Drafts *******/

  /** A draft has exactly the content of its source, and every one of its vectors is
      valid for its configuration. */
  lemma DraftCopiesItsSource(s: Store, source: nat, newId: nat)
    requires Next(s, CreateDraft(source, newId)).1
    ensures var s' := Next(s, CreateDraft(source, newId)).0;
            && s'.versions[source] == s.versions[source]
            && Content(s'.versions[newId]) == Content(s.versions[source])
            && (forall k | k in s'.versions[newId].chunks :: ValidFor(k.emb, s.versions[source].config) || k.emb == UNEMBEDDED)
            && (LiveSound(s) ==> s'.versions[newId].chunks == s.versions[source].chunks && Complete(s'.versions[newId]))
  {
    var v, d := s.versions[source], Next(s, CreateDraft(source, newId)).0.versions[newId];
    forall i | 0 <= i < |v.chunks| ensures Unembedded(d.chunks[i]) == Unembedded(v.chunks[i]) {}
    if LiveSound(s) {
      CompleteExactly(v);
      SanitizingKeepsValidRows(v.chunks, v.config);
      CompleteExactly(d);
    }
  }

  lemma SanitizingKeepsValidRows(chunks: seq<Chunk>, c: Config)
    requires FullyEmbedded(chunks, c)
    ensures SanitizedRows(chunks, c) == chunks
  {
    forall i | 0 <= i < |chunks| ensures Sanitized(chunks[i], c) == chunks[i] {
      assert chunks[i] in chunks;
      forall j | 0 <= j < |chunks[i].questions| ensures ValidFor(chunks[i].questions[j].emb, c) {
        QuestionAt(chunks, i, j);
      }
    }
  }
}
