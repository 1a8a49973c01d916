/** The corpus tables and the transactions on them, statement by statement.  Each method is
    proved to be the one step of CorpusLifecycle that it implements. */
module CorpusRepository {
  import opened Wrappers
  import opened Sequences
  import opened CorpusLifecycle

  predicate IsBuildingOf(s: Store, id: nat, corpus: nat) {
    id in s.versions && s.versions[id].corpus == corpus && s.versions[id].status.Building?
  }

  ghost predicate HasBuilding(s: Store, corpus: nat) {
    exists i :: IsBuildingOf(s, i, corpus)
  }

  class Repository {
    var versions: map<nat, Version>
    var approvals: seq<Approval>

    ghost function State(): Store
      reads this
    {
      Store(versions, approvals)
    }

    constructor ()
      ensures State() == Store(map[], [])
      ensures LiveSound(State()) && ApprovalsSettled(State())
    {
      versions, approvals := map[], [];
    }

    method RefreshEmbeddingCounts(id: nat)
      requires id in versions
      modifies this`versions
      ensures versions == old(versions)[id := Recounted(old(versions)[id])]
    {
      var v := versions[id];
      var questions := Questions(v.chunks);
      versions := versions[id := v.(counts := Counts(|v.chunks|, |Keep(v.chunks, ChunkEmbedded(v.config))|,
                                                     |questions|, |Keep(questions, QuestionEmbedded(v.config))|))];
    }

    method GetActiveVersion(corpus: nat) returns (live: Option<nat>)
      ensures live.Some? ==> IsActiveOf(State(), live.value, corpus)
      ensures live.None? ==> forall i | i in versions :: !IsActiveOf(State(), i, corpus)
    {
      var rest := versions.Keys;
      while rest != {}
        invariant rest <= versions.Keys
        invariant forall i | i in versions && i !in rest :: !IsActiveOf(State(), i, corpus)
        decreases |rest|
      {
        var i :| i in rest;
        if versions[i].corpus == corpus && versions[i].status == Active {
          return Some(i);
        }
        rest := rest - {i};
      }
      live := None;
    }

    /** Returns the building version, else reopens a qa_ready one of the same configuration, else
        inserts one; a building version of another configuration is an error. */
    method GetOrCreateBuilding(corpus: nat, config: Config, newId: nat, needsDraft: bool) returns (r: Result<nat>)
      requires newId !in versions
      modifies this
      ensures r.Failure? ==> State() == old(State())
      ensures r.Failure? && HasBuilding(old(State()), corpus) ==>
        exists i :: IsBuildingOf(old(State()), i, corpus) && old(versions)[i].config != config
      ensures r.Failure? && !HasBuilding(old(State()), corpus) ==> needsDraft && exists i :: IsActiveOf(old(State()), i, corpus)
      ensures r.Success? ==> IsBuildingOf(State(), r.value, corpus) && versions[r.value].config == config
      ensures r.Success? ==>
        if HasBuilding(old(State()), corpus) then State() == old(State())
        else if r.value in old(versions) then (State(), true) == Next(old(State()), Reopen(r.value, config))
        else (State(), true) == Next(old(State()), NewBuilding(corpus, config, newId))
             && (needsDraft ==> forall i | i in old(versions) :: !IsActiveOf(old(State()), i, corpus))
    {
      if i :| i in versions && versions[i].corpus == corpus && versions[i].status == Building {
        assert IsBuildingOf(State(), i, corpus);
        if versions[i].config != config {
          return Failure("EMBEDDING_CONFIGURATION_CHANGE_REQUIRES_NEW_CORPUS_VERSION");
        }
        return Success(i);
      }
      assert !HasBuilding(State(), corpus);
      if i :| i in versions && versions[i].corpus == corpus && versions[i].status == QaReady {
        if versions[i].config == config {
          versions := versions[i := versions[i].(status := Building)];
          InvalidateApprovals(i);
          return Success(i);
        }
      }
      if needsDraft {
        var live := GetActiveVersion(corpus);
        if live.Some? {
          return Failure("ACTIVE_CORPUS_REQUIRES_EDITABLE_DRAFT");
        }
      }
      versions := versions[newId := Version(corpus, config, Building, {}, [], Counts(0, 0, 0, 0))];
      r := Success(newId);
    }

    method InvalidateApprovals(id: nat)
      modifies this`approvals
      ensures approvals == Invalidated(old(approvals), id)
    {
      approvals := Invalidated(approvals, id);
    }

    method ReplaceChapterChunks(id: nat, doc: Doc, chunks: seq<Chunk>) returns (done: bool)
      modifies this`versions
      ensures (State(), done) == Next(old(State()), ReplaceDocument(id, doc, chunks))
    {
      if id !in versions || versions[id].status != Building {
        return false;
      }
      var v := versions[id];
      var kept := Keep(v.chunks, OutsideDocument(doc));
      var inserted := InsertRows(chunks, doc);
      versions := versions[id := v.(docs := v.docs + {doc}, chunks := kept + inserted)];
      RefreshEmbeddingCounts(id);
      Overwritten(old(versions), id, v.(docs := v.docs + {doc}, chunks := kept + inserted), versions[id]);
      done := true;
    }

    method InsertRows(chunks: seq<Chunk>, doc: Doc) returns (inserted: seq<Chunk>)
      ensures inserted == ImportedRows(chunks, doc)
    {
      inserted := [];
      var i := 0;
      while i < |chunks|
        invariant i <= |chunks| == |ImportedRows(chunks, doc)| && inserted == ImportedRows(chunks, doc)[..i]
      {
        var questions := InsertQuestions(chunks[i].questions);
        inserted := inserted + [chunks[i].(doc := doc, emb := UNEMBEDDED, questions := questions)];
        assert inserted[i] == Imported(chunks[i], doc);
        i := i + 1;
      }
    }

    method InsertQuestions(given: seq<Question>) returns (rows: seq<Question>)
      ensures rows == WithoutVectors(Keep(given, HasText()))
    {
      rows := [];
      var i := 0;
      while i < |given|
        invariant i <= |given|
        invariant rows == WithoutVectors(Keep(given[..i], HasText()))
      {
        KeepPush(given[..i], given[i], HasText());
        PushWithoutVector(Keep(given[..i], HasText()), given[i]);
        assert given[..i + 1] == given[..i] + [given[i]];
        if given[i].text != "" { rows := rows + [Question(given[i].text, UNEMBEDDED)]; }
        i := i + 1;
      }
      assert given[..i] == given;
    }

    /** _make_building: editing reopens a qa_ready version and refuses a live or retired one. */
    method MakeBuilding(id: nat) returns (done: bool)
      requires id in versions
      modifies this`versions
      ensures done == Editable(old(State()), id)
      ensures versions == if done then old(versions)[id := old(versions)[id].(status := Building)] else old(versions)
    {
      var v := versions[id];
      if v.status == Active || v.status == Superseded {
        return false;
      }
      if v.status == QaReady { versions := versions[id := v.(status := Building)]; }
      assert versions == old(versions)[id := old(versions)[id].(status := Building)];
      done := true;
    }

    /** What every edit shares: _make_building, the changed rows, the approvals, the counters. */
    method Rewrite(id: nat, chunks: seq<Chunk>) returns (done: bool)
      requires id in versions
      modifies this
      ensures done == Editable(old(State()), id)
      ensures State() == if done then Edited(old(State()), id, chunks) else old(State())
    {
      done := MakeBuilding(id);
      if done {
        ghost var edited := old(versions)[id].(status := Building, chunks := chunks);
        versions := versions[id := versions[id].(chunks := chunks)];
        Overwritten(old(versions), id, old(versions)[id].(status := Building), edited);
        InvalidateApprovals(id);
        RefreshEmbeddingCounts(id);
        Overwritten(old(versions), id, edited, Recounted(edited));
      }
    }

    method EditedRow(chunks: seq<Chunk>, k: nat, edit: QuestionEdit) returns (questions: Option<seq<Question>>)
      requires k < |chunks|
      ensures questions == EditedQuestions(chunks[k].questions, edit)
    {
      var qs := chunks[k].questions;
      match edit {
        case DeleteQuestion(q) =>
          if q >= |qs| { return None; }
          qs := qs[..q] + qs[q + 1..];
        case ChangeQuestion(q, text) =>
          if text == "" || q >= |qs| { return None; }
          qs := qs[q := Question(text, UNEMBEDDED)];
        case AddQuestion(text) =>
          if text == "" { return None; }
          qs := qs + [Question(text, UNEMBEDDED)];
      }
      questions := Some(qs);
    }

    /** An error raised after _make_building rolls its transaction back, so it is looked for first. */
    method EditQuestionRow(id: nat, k: nat, edit: QuestionEdit) returns (done: bool)
      modifies this
      ensures (State(), done) == Next(old(State()), EditQuestion(id, k, edit))
    {
      if id !in versions || k >= |versions[id].chunks| {
        return false;
      }
      var chunks := versions[id].chunks;
      var questions := EditedRow(chunks, k, edit);
      if questions.None? {
        return false;
      }
      done := Rewrite(id, chunks[k := chunks[k].(questions := questions.value)]);
    }

    method EditedVisualRow(chunk: Chunk, v: nat, edit: VisualEdit) returns (r: Option<Chunk>)
      requires v < |chunk.visuals|
      ensures var visual := EditedVisual(chunk.visuals[v], edit);
              r == if visual.None? then None else Some(ChunkWithVisual(chunk, v, visual.value))
    {
      var before := chunk.visuals[v];
      var title := if edit.title.Some? then edit.title.value else before.title;
      var description := if edit.description.Some? then edit.description.value else before.description;
      if title == "" || description == "" || |title| > 240 || |description| > 4000 {
        return None;
      }
      var review := if edit.review.Some? then edit.review.value else before.review;
      var policy := if edit.policy.Some? then edit.policy.value else before.policy;
      var embeddingChanged := (title, description, review) != (before.title, before.description, before.review);
      var row := chunk.(visuals := chunk.visuals[v := Visual(title, description, review, policy, before.stored)]);
      if embeddingChanged { row := row.(emb := UNEMBEDDED); }
      r := Some(row);
    }

    method EditVisualRow(id: nat, k: nat, v: nat, edit: VisualEdit) returns (done: bool)
      modifies this
      ensures (State(), done) == Next(old(State()), EditVisual(id, k, v, edit))
    {
      if id !in versions || k >= |versions[id].chunks| || v >= |versions[id].chunks[k].visuals| {
        return false;
      }
      var chunks := versions[id].chunks;
      var chunk := EditedVisualRow(chunks[k], v, edit);
      if chunk.None? {
        return false;
      }
      done := Rewrite(id, chunks[k := chunk.value]);
    }

    method CreateEditableDraft(source: nat, newId: nat) returns (done: bool)
      requires newId !in versions
      modifies this`versions
      ensures (State(), done) == Next(old(State()), CreateDraft(source, newId))
    {
      if source !in versions || versions[source].status != Active {
        return false;
      }
      var v := versions[source];
      var chunks: seq<Chunk> := [];
      var i := 0;
      while i < |v.chunks|
        invariant i <= |v.chunks| && versions == old(versions)
        invariant chunks == SanitizedRows(v.chunks[..i], v.config)
      {
        var questions := CloneQuestions(v.chunks[i].questions, v.config);
        var emb := if ValidFor(v.chunks[i].emb, v.config) then v.chunks[i].emb else UNEMBEDDED;
        chunks := chunks + [v.chunks[i].(emb := emb, questions := questions)];
        i := i + 1;
        assert chunks[i - 1] == Sanitized(v.chunks[i - 1], v.config);
      }
      assert v.chunks[..i] == v.chunks;
      versions := versions[newId := Version(v.corpus, v.config, Building, v.docs, chunks, Counts(0, 0, 0, 0))];
      RefreshEmbeddingCounts(newId);
      Overwritten(old(versions), newId, v.(status := Building, chunks := chunks, counts := Counts(0, 0, 0, 0)), versions[newId]);
      done := true;
    }

    method CloneQuestions(given: seq<Question>, c: Config) returns (rows: seq<Question>)
      ensures rows == WithValidVectors(given, c)
    {
      rows := [];
      var i := 0;
      while i < |given|
        invariant |rows| == i <= |given|
        invariant forall j | 0 <= j < i ::
          rows[j] == given[j].(emb := if ValidFor(given[j].emb, c) then given[j].emb else UNEMBEDDED)
      {
        var q := given[i];
        if !ValidFor(q.emb, c) { q := q.(emb := UNEMBEDDED); }
        rows := rows + [q];
        i := i + 1;
      }
    }

    method ApproveQa(id: nat) returns (done: bool)
      modifies this`approvals
      ensures (State(), done) == Next(old(State()), Approve(id))
    {
      done := id in versions && versions[id].status == QaReady;
      if done { approvals := approvals + [Approval(id, true)]; }
    }

    method PassesGates(id: nat, rollback: bool, settled: bool) returns (passes: bool)
      ensures passes == Activatable(State(), id, rollback, settled)
    {
      if id !in versions || !(versions[id].status == QaReady || (rollback && versions[id].status == Superseded)) {
        return false;
      }
      passes := Complete(versions[id]) && settled && Approval(id, true) in approvals && Servable(versions[id]);
    }

    /** The two updates in their order: supersede the live version, activate. */
    method SwapLive(id: nat)
      requires id in versions
      modifies this`versions
      ensures versions == Activated(old(State()), id).versions
    {
      TwoUpdatesActivate(State(), id);
      versions := LiveSuperseded(versions, versions[id].corpus);
      versions := versions[id := versions[id].(status := Active)];
    }

    method ActivateVersion(id: nat, rollback: bool, settled: bool) returns (done: bool)
      modifies this`versions
      ensures (State(), done) == Next(old(State()), Activate(id, rollback, settled))
    {
      done := PassesGates(id, rollback, settled);
      if done { SwapLive(id); }
    }

    /** Deletes the chapter's rows and, only when there are any, its documents with their rows. */
    method RemoveChapter(id: nat, chapter: string)
      requires id in versions
      modifies this`versions
      ensures versions == old(versions)[id := ChapterRemoved(old(versions)[id], chapter)]
    {
      var v := versions[id];
      if Keep(v.chunks, InChapter(chapter)) != [] {
        v := v.(chunks := Keep(v.chunks, OutsideChapter(chapter)));
        v := v.(chunks := Keep(v.chunks, OutsideResource(ResourceOf(chapter))),
                docs := set d | d in v.docs && d.resource != ResourceOf(chapter));
      }
      versions := versions[id := v];
    }

    method DeleteChapterFromActive(id: nat, chapter: string) returns (done: bool)
      modifies this
      ensures (State(), done) == Next(old(State()), DeleteChapter(id, chapter))
    {
      if id !in versions || versions[id].status != Active {
        return false;
      }
      RemoveChapter(id, chapter);
      RefreshEmbeddingCounts(id);
      Overwritten(old(versions), id, ChapterRemoved(old(versions)[id], chapter), versions[id]);
      InvalidateApprovals(id);
      done := true;
    }

    /** Replaces the live chapter by the temporary version's documents and rows. */
    method MoveChapter(temp: nat, live: nat, chapter: string)
      requires temp in versions && live in versions && temp != live
      modifies this`versions
      ensures versions == old(versions)[live := Promoted(old(versions)[temp], old(versions)[live], chapter)]
    {
      RemoveChapter(live, chapter);
      var v := versions[live];
      v := v.(docs := v.docs + versions[temp].docs);
      v := v.(chunks := v.chunks + versions[temp].chunks);
      versions := versions[live := v];
      RefreshEmbeddingCounts(live);
    }

    /** The guarded promotion: moves the chapter, then drops the temporary version. */
    method PromoteChapter(temp: nat, live: nat, chapter: string) returns (done: bool)
      requires temp in versions && live in versions && temp != live
      modifies this
      ensures done == Promotable(old(versions)[temp], old(versions)[live], chapter)
      ensures State() == if done then WithPromotion(old(State()), temp, live, chapter) else old(State())
    {
      if !Promotable(versions[temp], versions[live], chapter) {
        return false;
      }
      MoveChapter(temp, live, chapter);
      InvalidateApprovals(live);
      versions := versions - {temp};
      PromotionMovesAndDrops(old(State()), temp, live, chapter);
      approvals := Keep(approvals, OfOtherVersions(temp));
      done := true;
    }

    /** Refreshes the counters and, when the report accepts the version, makes it qa_ready. */
    method MarkReady(id: nat, settled: bool) returns (ready: bool)
      requires id in versions
      modifies this`versions
      ensures var v := Recounted(old(versions)[id]);
              && ready == (v.status.Building? && Complete(v) && settled)
              && State() == Put(old(State()), id, if ready then v.(status := QaReady) else v)
    {
      RefreshEmbeddingCounts(id);
      ready := versions[id].status == Building && Complete(versions[id]) && settled;
      if ready {
        versions := versions[id := versions[id].(status := QaReady)];
        Overwritten(old(versions), id, Recounted(old(versions)[id]), versions[id]);
      }
    }

    /** The completeness job.  A refused promotion raises, but only its own transaction is undone. */
    method ConfirmCompleteness(id: nat, settled: bool, promote: Option<string>) returns (done: bool)
      requires OneActive(State())
      modifies this
      ensures (State(), done) == Next(old(State()), Confirm(id, settled, promote))
    {
      if id !in versions {
        return false;
      }
      done := MarkReady(id, settled);
      if done && promote.Some? {
        var live := GetActiveVersion(versions[id].corpus);
        SameLive(old(State()), State(), id, live);
        if live.Some? { done := PromoteChapter(id, live.value, promote.value); }
      }
    }
  }

  lemma PushWithoutVector(qs: seq<Question>, q: Question)
    ensures WithoutVectors(qs + [q]) == WithoutVectors(qs) + [Question(q.text, UNEMBEDDED)]
  {
  }

  // The first update of an activation.
  function LiveSuperseded(m: map<nat, Version>, corpus: nat): (r: map<nat, Version>)
    ensures r.Keys == m.Keys
  {
    map i | i in m :: if m[i].corpus == corpus && m[i].status.Active? then m[i].(status := Superseded) else m[i]
  }

  lemma TwoUpdatesActivate(s: Store, id: nat)
    requires id in s.versions
    ensures var m := LiveSuperseded(s.versions, s.versions[id].corpus);
            m[id := m[id].(status := Active)] == Activated(s, id).versions
  {
    var m := LiveSuperseded(s.versions, s.versions[id].corpus);
    var updated, activated := m[id := m[id].(status := Active)], Activated(s, id).versions;
    assert updated.Keys == activated.Keys;
    forall i | i in activated ensures updated[i] == activated[i] {
      if i != id { assert updated[i] == m[i]; }
    }
  }

  lemma PromotionMovesAndDrops(s: Store, temp: nat, live: nat, chapter: string)
    requires temp in s.versions && live in s.versions && temp != live
    ensures var moved := s.versions[live := Promoted(s.versions[temp], s.versions[live], chapter)];
            moved - {temp} == WithPromotion(s, temp, live, chapter).versions
  {
  }

  lemma Overwritten(m: map<nat, Version>, id: nat, first: Version, last: Version)
    ensures m[id := first][id := last] == m[id := last]
  {
  }

  lemma SameLive(s: Store, s': Store, id: nat, live: Option<nat>)
    requires OneActive(s) && id in s.versions && !s.versions[id].status.Active?
    requires s'.versions.Keys == s.versions.Keys
    requires forall i | i in s.versions && i != id :: s'.versions[i] == s.versions[i]
    requires s'.versions[id].corpus == s.versions[id].corpus && !s'.versions[id].status.Active?
    requires live.Some? ==> IsActiveOf(s', live.value, s.versions[id].corpus)
    requires live.None? ==> forall i | i in s'.versions :: !IsActiveOf(s', i, s.versions[id].corpus)
    ensures live == LiveOf(s, id)
  {
    var other := LiveOf(s, id);
    if other.Some? { assert IsActiveOf(s', other.value, s.versions[id].corpus); }
    if live.Some? { assert IsActiveOf(s, live.value, s.versions[id].corpus); }
  }
}
