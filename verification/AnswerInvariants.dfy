/** What every statement on the answer tables keeps, and how it may move them on. */
module AnswerInvariants {
  import opened Wrappers
  import opened Sequences
  import opened AnswerTables
  import Mcqs = McqResults
  import Paper = PaperExtraction

  lemma EvolvesTransitively(a: Db, b: Db, c: Db)
    requires Evolves(a, b) && Evolves(b, c)
    ensures Evolves(a, c)
  {
    forall i | 0 <= i < |a.items| ensures ItemEvolves(a.items[i], c.items[i]) {
      assert ItemEvolves(a.items[i], b.items[i]) && ItemEvolves(b.items[i], c.items[i]);
    }
  }

  lemma LocalsStaySound(db: Db, db': Db, me: Local)
    requires LocalSound(db, me) && Evolves(db, db')
    ensures LocalSound(db', me)
  {
    if OfAnItem(me) { assert ItemEvolves(db.items[me.item], db'.items[me.item]); }
  }

  lemma {:induction false} SameMcqs(a: seq<Item>, b: seq<Item>)
    requires |a| == |b| && forall i | 0 <= i < |a| :: a[i].form == b[i].form
    ensures PaperMcqs(a) == PaperMcqs(b)
  {
    if a != [] { SameMcqs(a[..|a| - 1], b[..|b| - 1]); }
  }

  lemma BatchesStaySound(db: Db, db': Db)
    requires BatchesSound(db) && db'.batches == db.batches && ItemsEvolve(db.items, db'.items)
    ensures BatchesSound(db')
  {
    if db.batches != map[] {
      forall i | 0 <= i < |db.items| ensures db'.items[i].form == db.items[i].form && !db'.items[i].status.NeedsCorrection? {
        assert ItemEvolves(db.items[i], db'.items[i]);
      }
      SameMcqs(db.items, db'.items);
    }
  }

  lemma SameClass(a: seq<Item>, b: seq<Item>)
    requires |a| == |b| && forall i | 0 <= i < |a| :: a[i].status == b[i].status
    ensures Classified(a) == Classified(b) && AnyOpen(a) == AnyOpen(b)
  {
    assert forall i | 0 <= i < |a| :: b[i].status == a[i].status;
  }

  // An update of one item row that keeps it clear or unclear and, once settled, all of it.
  lemma ItemUpdate(db: Db, i: nat, row: Item)
    requires DbSound(db) && i < |db.items| && ItemEvolves(db.items[i], row)
    requires ItemSound(db.(items := db.items[i := row]), i)
    requires row.status.NeedsCorrection? == db.items[i].status.NeedsCorrection?
    requires !db.overridden && Ended(db.paper.workflow) ==> row.status == db.items[i].status
    ensures DbSound(db.(items := db.items[i := row]))
    ensures Evolves(db, db.(items := db.items[i := row]))
  {
    var db' := db.(items := db.items[i := row]);
    forall j | 0 <= j < |db'.items| ensures ItemSound(db', j) { assert ItemSound(db, j); }
    forall j | 0 <= j < |db.items| ensures ItemEvolves(db.items[j], db'.items[j]) {}
    BatchesStaySound(db, db');
    if !db.overridden && Ended(db.paper.workflow) { SameClass(db.items, db'.items); }
  }

  lemma ItemRowKeepsSound(db: Db, me: Local, a: Action)
    requires DbSound(db) && LocalSound(db, me)
    requires a.Link? || a.MarkAnswering? || a.Record? || a.Fail?
    ensures DbSound(Act(db, me, a).0) && Evolves(db, Act(db, me, a).0)
  {
    var db' := Act(db, me, a).0;
    if db' != db {
      var i := if a.Fail? then a.item else me.item;
      assert ItemSound(db, i);
      if !db.overridden && Ended(db.paper.workflow) { assert !Open(db.items[i]); }
      ItemUpdate(db, i, db'.items[i]);
    }
  }

  // Rows appended to, or columns set in, the request and answer tables.
  lemma AppendKeepsSound(db: Db, db': Db)
    requires DbSound(db) && db' == db.(requests := db'.requests, answers := db'.answers)
    requires RequestsEvolve(db.requests, db'.requests) && OneRequestPerItem(db')
    requires AnswersEvolve(db.answers, db'.answers) && OneAnswerPerRequest(db')
    ensures DbSound(db') && Evolves(db, db')
  {
    forall i | 0 <= i < |db'.items| ensures ItemSound(db', i) { assert ItemSound(db, i); }
  }

  lemma AskKeepsSound(db: Db, me: Local, item: nat)
    requires DbSound(db)
    ensures DbSound(Act(db, me, Ask(item)).0) && Evolves(db, Act(db, me, Ask(item)).0)
  {
    AppendKeepsSound(db, Act(db, me, Ask(item)).0);
  }

  lemma PersistKeepsSound(db: Db, me: Local, source: Source, text: string, revision: Option<nat>)
    requires DbSound(db)
    ensures DbSound(Act(db, me, Persist(source, text, revision)).0)
    ensures Evolves(db, Act(db, me, Persist(source, text, revision)).0)
  {
    AppendKeepsSound(db, Act(db, me, Persist(source, text, revision)).0);
  }

  lemma ColumnKeepsSound(db: Db, me: Local, a: Action)
    requires DbSound(db) && (a.Stamp? || a.ApproveAnswer?)
    ensures DbSound(Act(db, me, a).0) && Evolves(db, Act(db, me, a).0)
  {
    AppendKeepsSound(db, Act(db, me, a).0);
  }

  lemma FinishKeepsSound(db: Db)
    requires DbSound(db)
    ensures DbSound(Finished(db)) && Evolves(db, Finished(db))
  {
    forall i | 0 <= i < |db.items| ensures ItemSound(Finished(db), i) { assert ItemSound(db, i); }
  }

  lemma FailRestKeepsSound(db: Db)
    requires DbSound(db) && db.paper.workflow.InAnswering?
    ensures var db' := Finished(db.(items := WithoutOpen(db.items)));
            DbSound(db') && Evolves(db, db') && !AnyOpen(db'.items)
  {
    var mid := db.(items := WithoutOpen(db.items));
    forall i | 0 <= i < |mid.items| ensures ItemSound(mid, i) && ItemEvolves(db.items[i], mid.items[i]) { assert ItemSound(db, i); }
    BatchesStaySound(db, mid);
    FinishKeepsSound(mid);
    EvolvesTransitively(db, mid, Finished(mid));
  }

  // A step that changes only the job row, the epoch and the batches.
  lemma JobRowKeepsSound(db: Db, db': Db)
    requires DbSound(db) && db' == db.(paper := db'.paper, epoch := db'.epoch, overridden := db'.overridden)
    requires db'.paper.items == db.paper.items && (Extracted(db'.paper.workflow) ==> Extracted(db.paper.workflow))
    requires db'.paper.workflow.InAnswering? ==> !AnyWith(db.items, NeedsCorrection)
    requires db.overridden ==> db'.overridden
    requires !db'.overridden ==> Truthful(db') && StatusKept(db.paper.workflow, db'.paper.workflow)
    requires db.paper.workflow.InAnswering? && db'.paper.workflow.InAnswering? ==> db'.epoch == db.epoch
    ensures DbSound(db') && Evolves(db, db')
  {
    forall i | 0 <= i < |db'.items| ensures ItemSound(db', i) { assert ItemSound(db, i); }
  }

  lemma PaperStepKeepsSound(db: Db, me: Local, step: Paper.Action)
    requires DbSound(db) && JobStep(step)
    ensures DbSound(Act(db, me, OnPaper(step)).0) && Evolves(db, Act(db, me, OnPaper(step)).0)
  {
    JobRowKeepsSound(db, Act(db, me, OnPaper(step)).0);
  }

  lemma ExtractKeepsSound(db: Db, me: Local, forms: seq<Form>)
    requires DbSound(db)
    ensures DbSound(Act(db, me, Extract(forms)).0) && Evolves(db, Act(db, me, Extract(forms)).0)
  {
    var db' := Act(db, me, Extract(forms)).0;
    if db' != db {
      var epoch := PaperLocal(me).epoch;
      if db.paper.items != [] { Paper.SecondSetConflicts(db.paper.items, epoch, ClearOf(forms)); }
      assert db.items == [] && db'.items == NewItems(forms);
      assert db'.paper.items == Paper.Records(epoch, ClearOf(forms));
      NewItemsFit(forms, epoch);
      FirstItemsKeepSound(db, db');
    }
  }

  predicate Untouched(i: Item) {
    && i.request.None? && i.answer.None? && !i.status.Answered?
    && (i.form.mode.NotClear? <==> i.status.NeedsCorrection?)
  }

  // What an extraction writes is what the paper records of it.
  lemma NewItemsFit(forms: seq<Form>, epoch: nat)
    ensures Aligned(NewItems(forms), Paper.Records(epoch, ClearOf(forms)))
    ensures forall i | 0 <= i < |NewItems(forms)| :: Untouched(NewItems(forms)[i])
    ensures AnyWith(NewItems(forms), NeedsCorrection) <==> Paper.AnyUnclear(Paper.Records(epoch, ClearOf(forms)))
  {
    Paper.RecordsAreOneSet(epoch, ClearOf(forms));
  }

  lemma FirstItemsKeepSound(db: Db, db': Db)
    requires DbSound(db) && db.items == [] && db' == db.(paper := db'.paper, items := db'.items)
    requires db'.items != [] && Aligned(db'.items, db'.paper.items) && forall i | 0 <= i < |db'.items| :: Untouched(db'.items[i])
    requires db.paper.workflow.Extracting? && (db'.paper.workflow.NeedsCorrection? || db'.paper.workflow.ReadyToAnswer?)
    ensures DbSound(db') && Evolves(db, db')
  {
    forall i | 0 <= i < |db'.items| ensures ItemSound(db', i) { assert Untouched(db'.items[i]); }
  }

  lemma CorrectionKeepsSound(db: Db, me: Local, i: nat, form: Form)
    requires DbSound(db)
    ensures DbSound(Act(db, me, CorrectItem(i, form)).0) && Evolves(db, Act(db, me, CorrectItem(i, form)).0)
  {
    var db' := Act(db, me, CorrectItem(i, form)).0;
    if db' != db {
      forall j | 0 <= j < |db'.items| ensures ItemSound(db', j) { assert ItemSound(db, j); }
    }
  }

  lemma StartKeepsSound(db: Db, me: Local, epoch: nat)
    requires DbSound(db)
    ensures DbSound(Act(db, me, Start(epoch)).0) && Evolves(db, Act(db, me, Start(epoch)).0)
  {
    JobRowKeepsSound(db, Act(db, me, Start(epoch)).0);
  }

  lemma BatchKeepsSound(db: Db, me: Local, epoch: nat, results: seq<Mcqs.McqResult>)
    requires DbSound(db)
    ensures DbSound(Act(db, me, SaveBatch(epoch, results)).0) && Evolves(db, Act(db, me, SaveBatch(epoch, results)).0)
  {
    var db' := Act(db, me, SaveBatch(epoch, results)).0;
    forall i | 0 <= i < |db'.items| ensures ItemSound(db', i) { assert ItemSound(db, i); }
  }

  lemma PaperActKeepsSound(db: Db, me: Local, a: Action)
    requires DbSound(db) && (a.OnPaper? || a.Extract? || a.CorrectItem? || a.Start?)
    ensures DbSound(Act(db, me, a).0) && Evolves(db, Act(db, me, a).0)
  {
    match a
    case OnPaper(step) => if JobStep(step) { PaperStepKeepsSound(db, me, step); }
    case Extract(forms) => ExtractKeepsSound(db, me, forms);
    case CorrectItem(i, form) => CorrectionKeepsSound(db, me, i, form);
    case Start(epoch) => StartKeepsSound(db, me, epoch);
  }

  lemma WholePaperKeepsSound(db: Db, me: Local, a: Action)
    requires DbSound(db) && (a.SaveBatch? || a.Finish? || a.FailRest?)
    ensures DbSound(Act(db, me, a).0) && Evolves(db, Act(db, me, a).0)
  {
    match a
    case SaveBatch(epoch, results) => BatchKeepsSound(db, me, epoch, results);
    case Finish => FinishKeepsSound(db);
    case FailRest => if db.paper.workflow.InAnswering? { FailRestKeepsSound(db); }
  }

  lemma RowKeepsSound(db: Db, me: Local, a: Action)
    requires DbSound(db)
    requires a.Ask? || a.CheckExisting? || a.Persist? || a.Stamp? || a.ApproveAnswer? || a.Crash?
    ensures DbSound(Act(db, me, a).0) && Evolves(db, Act(db, me, a).0)
  {
    match a
    case Ask(item) => AskKeepsSound(db, me, item);
    case Persist(source, text, revision) => PersistKeepsSound(db, me, source, text, revision);
    case Stamp => ColumnKeepsSound(db, me, a);
    case ApproveAnswer(_, _) => ColumnKeepsSound(db, me, a);
    case _ =>
  }

  /** Each statement keeps at most one request per item and one answer per request, and takes
      nothing back... */
  lemma ActKeepsSound(db: Db, me: Local, a: Action)
    requires DbSound(db) && LocalSound(db, me)
    ensures DbSound(Act(db, me, a).0) && Evolves(db, Act(db, me, a).0)
  {
    if a.OnPaper? || a.Extract? || a.CorrectItem? || a.Start? {
      PaperActKeepsSound(db, me, a);
    } else if a.Link? || a.MarkAnswering? || a.Record? || a.Fail? {
      ItemRowKeepsSound(db, me, a);
    } else if a.SaveBatch? || a.Finish? || a.FailRest? {
      WholePaperKeepsSound(db, me, a);
    } else {
      RowKeepsSound(db, me, a);
    }
  }

  /** ...and leaves its worker holding ids that are still right. */
  lemma ActKeepsLocal(db: Db, me: Local, a: Action)
    requires DbSound(db) && LocalSound(db, me)
    ensures LocalSound(Act(db, me, a).0, Act(db, me, a).1)
  {
    ActKeepsSound(db, me, a);
    LocalsStaySound(db, Act(db, me, a).0, me);
  }

  lemma NextKeepsSound(w: World, st: Step)
    requires Sound(w)
    ensures Sound(Next(w, st)) && Evolves(w.db, Next(w, st).db)
  {
    var w' := Next(w, st);
    ActKeepsSound(w.db, LocalOf(w, st.worker), st.action);
    ActKeepsLocal(w.db, LocalOf(w, st.worker), st.action);
    forall c | c in w'.workers ensures LocalSound(w'.db, w'.workers[c]) {
      if c != st.worker { LocalsStaySound(w.db, w'.db, w.workers[c]); }
    }
  }

  lemma {:induction false} RunKeepsSound(w: World, steps: seq<Step>)
    requires Sound(w)
    ensures Sound(Run(w, steps)) && Evolves(w.db, Run(w, steps).db)
    decreases steps
  {
    if steps != [] {
      NextKeepsSound(w, steps[0]);
      RunKeepsSound(Next(w, steps[0]), steps[1..]);
      EvolvesTransitively(w.db, Next(w, steps[0]).db, Run(w, steps).db);
    }
  }

  lemma FreshIsSound()
    ensures Sound(FRESH)
  {
  }
}
