/** What holds of the answer tables in every run, and when the paper's status can be relied on. */
module AnswerGuarantees {
  import opened Wrappers
  import opened AnswerTables
  import opened AnswerInvariants
  import Decimal
  import Mcqs = McqResults
  import Paper = PaperExtraction

  /** Whatever workers crash, restart or run twice, an item has at most one request row and one
      answer row: two rows for one item are the same row. */
  lemma OneRequestOneAnswer(w: World, steps: seq<Step>, a: nat, b: nat)
    requires Sound(w)
    ensures var db := Run(w, steps).db;
            && (a < |db.requests| && b < |db.requests| && a != b ==> db.requests[a].item != db.requests[b].item)
            && (a < |db.answers| && b < |db.answers| && a != b ==> db.answers[a].request != db.answers[b].request)
            && (forall i | 0 <= i < |db.items| && db.items[i].answer.Some? ::
                  db.items[i].request.Some? && db.items[i].answer.value < |db.answers|
                  && db.answers[db.items[i].answer.value].request == db.items[i].request.value)
  {
    RunKeepsSound(w, steps);
    var db := Run(w, steps).db;
    forall i | 0 <= i < |db.items| && db.items[i].answer.Some?
      ensures db.items[i].request.Some? && db.items[i].answer.value < |db.answers|
              && db.answers[db.items[i].answer.value].request == db.items[i].request.value
    {
      assert ItemSound(db, i);
    }
  }

  /** The first persisted answer wins: once a row exists its content stays as it is (an approval
      may add a revision), and a later attempt of any worker to persist for its request gets it. */
  lemma FirstAnswerWins(w: World, steps: seq<Step>, a: nat, worker: nat, source: Source, text: string, revision: Option<nat>)
    requires Sound(w) && a < |w.db.answers|
    ensures var w' := Run(w, steps);
            && a < |w'.db.answers| && w'.db.answers[a] == w.db.answers[a].(revision := w'.db.answers[a].revision)
            && (LocalOf(w', worker).Linked? && LocalOf(w', worker).request == w.db.answers[a].request ==>
                  var last := Next(w', Step(worker, Persist(source, text, revision)));
                  last.db == w'.db && LocalOf(last, worker).answer == a)
  {
    RunKeepsSound(w, steps);
  }

  /** Once answered, an item's row never changes again, whatever becomes of the paper's status. */
  lemma AnsweredIsFinal(w: World, steps: seq<Step>, i: nat)
    requires Sound(w) && i < |w.db.items| && w.db.items[i].status.Answered?
    ensures |Run(w, steps).db.items| == |w.db.items| && Run(w, steps).db.items[i] == w.db.items[i]
  {
    RunKeepsSound(w, steps);
    assert ItemSound(w.db, i) && ItemEvolves(w.db.items[i], Run(w, steps).db.items[i]);
  }

  lemma {:induction false} McqAt(items: seq<Item>, i: nat) returns (k: nat)
    requires i < |items| && items[i].form.mode.Mcq?
    ensures k < |PaperMcqs(items)| && PaperMcqs(items)[k] == Mcqs.McqItem(IdOf(i), items[i].form.options)
  {
    if i == |items| - 1 {
      k := |PaperMcqs(items)| - 1;
    } else {
      k := McqAt(items[..|items| - 1], i);
    }
  }

  lemma {:induction false} McqFrom(items: seq<Item>, k: nat) returns (i: nat)
    requires k < |PaperMcqs(items)|
    ensures i < |items| && items[i].form.mode.Mcq? && PaperMcqs(items)[k].id == IdOf(i)
  {
    if k < |PaperMcqs(items[..|items| - 1])| {
      i := McqFrom(items[..|items| - 1], k);
    } else {
      i := |items| - 1;
    }
  }

  lemma {:induction false} McqIdsAreDistinct(items: seq<Item>)
    ensures Mcqs.DistinctIds(PaperMcqs(items))
  {
    if items != [] {
      var front := items[..|items| - 1];
      McqIdsAreDistinct(front);
      forall k | 0 <= k < |PaperMcqs(front)| ensures PaperMcqs(front)[k].id != IdOf(|items| - 1) {
        var i := McqFrom(front, k);
        Decimal.DigitsAreInjective(i, |items| - 1);
      }
    }
  }

  /** A saved batch was validated for exactly the paper's MCQs, and stays so: looking an item up in
      it finds exactly one result, and every result is one item's. */
  lemma BatchCoversEveryMcq(w: World, steps: seq<Step>, epoch: nat, i: nat)
    requires Sound(w) && epoch in Run(w, steps).db.batches && i < |Run(w, steps).db.items|
    ensures var db := Run(w, steps).db;
            && (db.items[i].form.mode.Mcq? <==> exists k :: 0 <= k < |db.batches[epoch]| && db.batches[epoch][k].id == IdOf(i))
            && (forall j, k | 0 <= j < |db.batches[epoch]| && 0 <= k < |db.batches[epoch]|
                   && db.batches[epoch][j].id == db.batches[epoch][k].id :: j == k)
  {
    RunKeepsSound(w, steps);
    LookupFindsOne(Run(w, steps).db, epoch, i);
  }

  lemma LookupFindsOne(db: Db, epoch: nat, i: nat)
    requires DbSound(db) && epoch in db.batches && i < |db.items|
    ensures db.items[i].form.mode.Mcq? <==> exists k :: 0 <= k < |db.batches[epoch]| && db.batches[epoch][k].id == IdOf(i)
  {
    var results, mcqs := db.batches[epoch], PaperMcqs(db.items);
    if db.items[i].form.mode.Mcq? {
      var k := McqAt(db.items, i);
      Mcqs.LookupSucceeds(results, mcqs, k);
    }
    forall k | 0 <= k < |results| && results[k].id == IdOf(i) ensures db.items[i].form.mode.Mcq? {
      assert results[k].id in Mcqs.IdsOf(results) && Mcqs.IdsOf(results) == Mcqs.Ids(mcqs);
      var j :| 0 <= j < |mcqs| && mcqs[j].id == results[k].id;
      var n := McqFrom(db.items, j);
      Decimal.DigitsAreInjective(n, i);
    }
  }

  /******* The paper's status *******/

  // The step is one of the other writers' overriding ones.
  predicate OverridesAt(db: Db, me: Local, a: Action) {
    a.OnPaper? && JobStep(a.step) && Overrides(db, me, a.step)
  }

  /** Every statement keeps an ended status true and final, and lets answering only end, except
      exactly these: a charge or rejection by a validation worker that was slow, and a refund of
      a paper that is being answered, or has items to show for it. */
  lemma StatusExactly(db: Db, me: Local, a: Action)
    requires DbSound(db) && LocalSound(db, me) && !db.overridden
    ensures var db' := Act(db, me, a).0;
            && (Truthful(db') && StatusKept(db.paper.workflow, db'.paper.workflow) <==> !OverridesAt(db, me, a))
            && (db'.overridden <==> OverridesAt(db, me, a))
  {
    ActKeepsSound(db, me, a);
  }

  predicate AlwaysTrue(w: World, steps: seq<Step>)
    decreases steps
  {
    && Truthful(w.db)
    && (steps != [] ==> StatusKept(w.db.paper.workflow, Next(w, steps[0]).db.paper.workflow) && AlwaysTrue(Next(w, steps[0]), steps[1..]))
  }

  predicate EverOverrides(w: World, steps: seq<Step>)
    decreases steps
  {
    steps != [] && (OverridesAt(w.db, LocalOf(w, steps[0].worker), steps[0].action) || EverOverrides(Next(w, steps[0]), steps[1..]))
  }

  /** So in a whole run the status is true and final at every point exactly when the run has no
      such charge, rejection or refund. */
  lemma {:induction false} RunStatusExactly(w: World, steps: seq<Step>)
    requires Sound(w) && !w.db.overridden
    ensures AlwaysTrue(w, steps) <==> !EverOverrides(w, steps)
    ensures Run(w, steps).db.overridden <==> EverOverrides(w, steps)
    decreases steps
  {
    if steps != [] {
      var w' := Next(w, steps[0]);
      NextKeepsSound(w, steps[0]);
      StatusExactly(w.db, LocalOf(w, steps[0].worker), steps[0].action);
      if w'.db.overridden {
        RunKeepsSound(w', steps[1..]);
        assert AlwaysTrue(w', steps[1..]) ==> Truthful(w'.db);
      } else {
        RunStatusExactly(w', steps[1..]);
      }
    }
  }

  /** Without them an ended workflow classifies its items exactly, and stays as it is. */
  lemma EndedExactly(w: World, steps: seq<Step>)
    requires Sound(w) && !w.db.overridden && !EverOverrides(w, steps) && Ended(Run(w, steps).db.paper.workflow)
    ensures var db := Run(w, steps).db;
            && !AnyOpen(db.items)
            && (db.paper.workflow.FailedJob? <==> !AnyWith(db.items, Answered))
            && (db.paper.workflow.Completed? <==> AnyWith(db.items, Answered) && !AnyWith(db.items, Failed))
            && (db.paper.workflow.PartiallyCompleted? <==> AnyWith(db.items, Answered) && AnyWith(db.items, Failed))
    ensures Ended(w.db.paper.workflow) ==> Run(w, steps).db.paper.workflow == w.db.paper.workflow
  {
    RunKeepsSound(w, steps);
    RunStatusExactly(w, steps);
  }
}
