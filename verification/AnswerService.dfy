/** Answering one paper while any other workers act on the same tables between any two of this
    worker's statements.  Providers, retrieval and validation are arbitrary outcomes. */
module AnswerService {
  import opened Wrappers
  import opened Sequences
  import opened AnswerTables
  import opened AnswerInvariants
  import opened AnswerGuarantees
  import Mcqs = McqResults
  import Paper = PaperExtraction

  // How a stretch of work ends: normally, by an error that is handled on the spot, or by one
  // that leaves `answer` for the queue to retry.
  datatype Flow = Done | Handled(code: string) | Escapes

  // How one run of an answer job ends.  A crashed one stopped between any two statements.
  datatype Outcome =
    | Stale(workflow: Paper.Workflow)
    | Raised
    | Crashed
    | Chained(left: nat)
    | Finishes(workflow: Paper.Workflow)

  function OpenSet(items: seq<Item>): set<nat> {
    set i | 0 <= i < |items| && Open(items[i])
  }

  function SetOf(s: seq<nat>): set<nat> {
    set x | x in s
  }

  // The short and long items still to be answered, in paper order.
  function Remaining(items: seq<Item>): (r: seq<nat>)
    ensures forall i: nat :: i in r <==> i < |items| && items[i].form.mode.Written? && Open(items[i])
    ensures |SetOf(r)| == |r|
  {
    if items == [] then []
    else
      var front, last := items[..|items| - 1], |items| - 1;
      var rest := Remaining(front);
      if items[last].form.mode.Written? && Open(items[last])
      then (assert SetOf(rest + [last]) == SetOf(rest) + {last}; rest + [last])
      else rest
  }

  lemma {:induction false} SetOfIsNoLarger(s: seq<nat>)
    ensures |SetOf(s)| <= |s|
  {
    if s != [] {
      SetOfIsNoLarger(s[1..]);
      assert SetOf(s) == SetOf(s[1..]) + {s[0]};
    } else {
      assert SetOf(s) == {};
    }
  }

  lemma SubsetSize(a: set<nat>, b: set<nat>)
    requires a <= b
    ensures |a| <= |b|
  {
    assert b == a + (b - a);
  }

  /** The request conflict that _candidate_request guards against cannot arise. */
  lemma LinkNeverConflicts(db: Db, me: Local)
    requires DbSound(db) && LocalSound(db, me) && me.Asked?
    ensures Act(db, me, Link).1 == Linked(me.item, me.request)
  {
    assert ItemSound(db, me.item);
  }

  lemma OwnStatement(w: World, me: Local, a: Action)
    requires Sound(w) && LocalSound(w.db, me)
    ensures var (db, me') := Act(w.db, me, a);
            Sound(World(db, w.workers)) && LocalSound(db, me') && Evolves(w.db, db)
  {
    ActKeepsSound(w.db, me, a);
    ActKeepsLocal(w.db, me, a);
    var db := Act(w.db, me, a).0;
    forall c | c in w.workers ensures LocalSound(db, w.workers[c]) { LocalsStaySound(w.db, db, w.workers[c]); }
  }

  // Strictly falling keys, so no two of them are equal.
  predicate Falls(keys: seq<nat>) {
    forall i, j | 0 <= i < j < |keys| :: keys[i] > keys[j]
  }

  lemma FallsOn(keys: seq<nat>, left: nat)
    requires Falls(keys) && keys != [] && left < keys[|keys| - 1]
    ensures Falls(keys + [left])
  {
  }

  // Extracted and without an open correction.
  predicate Clear(items: seq<Item>) {
    items != [] && !AnyWith(items, NeedsCorrection)
  }

  predicate Over(i: Item) {
    i.status.Answered? || i.status.Failed?
  }

  predicate Settled(items: seq<Item>, ids: seq<nat>) {
    forall i | i in ids :: i < |items| && Over(items[i])
  }

  lemma SettledStays(a: seq<Item>, b: seq<Item>, ids: seq<nat>)
    requires ItemsEvolve(a, b) && Settled(a, ids)
    ensures Settled(b, ids)
  {
    forall i | i in ids ensures Over(b[i]) { assert ItemEvolves(a[i], b[i]); }
  }

  lemma ClearStays(a: seq<Item>, b: seq<Item>)
    requires ItemsEvolve(a, b) && Clear(a)
    ensures Clear(b) && |a| == |b|
    ensures forall i | 0 <= i < |a| :: a[i].form == b[i].form && (Over(a[i]) ==> Over(b[i]))
  {
    forall i | 0 <= i < |a| ensures b[i].status != NeedsCorrection && a[i].form == b[i].form && (Over(a[i]) ==> Over(b[i])) {
      assert ItemEvolves(a[i], b[i]) && a[i].status != NeedsCorrection;
    }
  }

  lemma OpenOnlyShrinks(a: seq<Item>, b: seq<Item>)
    requires ItemsEvolve(a, b) && Clear(a)
    ensures OpenSet(b) <= OpenSet(a) && |OpenSet(b)| <= |OpenSet(a)|
  {
    ClearStays(a, b);
    forall i | i in OpenSet(b) ensures i in OpenSet(a) { assert ItemEvolves(a[i], b[i]) && a[i].status != NeedsCorrection; }
    SubsetSize(OpenSet(b), OpenSet(a));
  }

  function Indices(n: nat): (r: seq<nat>)
    ensures forall i: nat :: i in r <==> i < n
  {
    if n == 0 then [] else Indices(n - 1) + [n - 1]
  }

  function IsMcq(items: seq<Item>): nat -> bool {
    (i: nat) => i < |items| && items[i].form.mode.Mcq?
  }

  function IsOpenIn(items: seq<Item>): nat -> bool {
    (i: nat) => i < |items| && Open(items[i])
  }

  predicate McqsSettled(items: seq<Item>) {
    forall i | 0 <= i < |items| && items[i].form.mode.Mcq? :: Over(items[i])
  }

  // What can still be open once the MCQs and the first n remaining items are settled.
  lemma LeftOver(items: seq<Item>, db: Db, n: nat)
    requires DbSound(db) && ItemsEvolve(items, db.items) && Clear(items) && McqsSettled(db.items) && n <= |Remaining(items)|
    requires Settled(db.items, Remaining(items)[..n])
    ensures OpenSet(db.items) <= SetOf(Remaining(items)[n..])
  {
    var remaining := Remaining(items);
    forall i | i in OpenSet(db.items) ensures i in remaining[n..] {
      OpenIsRemaining(items, db, i);
      assert remaining == remaining[..n] + remaining[n..] && !Over(db.items[i]);
    }
  }

  lemma OpenIsRemaining(items: seq<Item>, db: Db, i: nat)
    requires ItemsSound(db) && ItemsEvolve(items, db.items) && Clear(items) && McqsSettled(db.items)
    requires i < |db.items| && Open(db.items[i])
    ensures i in Remaining(items)
  {
    ClearStays(items, db.items);
    assert ItemEvolves(items[i], db.items[i]) && ItemSound(db, i) && items[i].status != NeedsCorrection;
  }

  lemma RemainingIsOpen(items: seq<Item>)
    ensures |Remaining(items)| <= |OpenSet(items)|
  {
    SubsetSize(SetOf(Remaining(items)), OpenSet(items));
  }

  lemma McqsStaySettled(a: seq<Item>, b: seq<Item>)
    requires ItemsEvolve(a, b) && Clear(a) && McqsSettled(a)
    ensures McqsSettled(b)
  {
    ClearStays(a, b);
  }

  lemma NothingOpen(items: seq<Item>)
    requires OpenSet(items) == {}
    ensures !AnyOpen(items)
  {
    forall i | 0 <= i < |items| ensures !Open(items[i]) { assert i !in OpenSet(items); }
  }

  // An answer run that chains leaves at most `left` items open, and fewer than it found.
  predicate ChainsOn(before: seq<Item>, after: seq<Item>, left: nat) {
    0 < left && |OpenSet(after)| <= left < |OpenSet(before)|
  }

  lemma ChainsOnFromBefore(a: seq<Item>, b: seq<Item>, c: seq<Item>, left: nat)
    requires ItemsEvolve(a, b) && Clear(a) && ChainsOn(b, c, left)
    ensures ChainsOn(a, c, left)
  {
    OpenOnlyShrinks(a, b);
  }

  // While nothing overrides the status, a paper that was being answered and has nothing open left
  // is still being answered or ended as its items say.
  lemma EndedAsClassified(a: Db, b: Db)
    requires DbSound(b) && Evolves(a, b) && a.paper.workflow.InAnswering? && !b.overridden
    ensures b.paper.workflow.InAnswering? || (b.paper.workflow == Classified(b.items) && !AnyOpen(b.items))
  {
  }

  class Service {
    var db: Db
    var others: map<nat, Local>

    predicate Valid()
      reads this
    {
      Sound(World(db, others))
    }

    constructor (db: Db)
      requires DbSound(db)
      ensures Valid() && this.db == db
    {
      this.db, others := db, map[];
    }

    /** Any steps of any other workers. */
    method Meanwhile()
      requires Valid()
      modifies this
      ensures Valid() && Evolves(old(db), db)
    {
      var steps: seq<Step> := *;
      RunKeepsSound(World(db, others), steps);
      var w := Run(World(db, others), steps);
      db, others := w.db, w.workers;
    }

    /******* The statements *******/

    method CreatePending(item: nat) returns (me: Local)
      requires item < |db.items|
      modifies this`db
      ensures (db, me) == Act(old(db), Idle, Ask(item))
    {
      var row := First(db.requests, OfItem(item));
      if row.None? {
        row := Some(|db.requests|);
        db := db.(requests := db.requests + [Request(item, None)]);
      }
      me := Asked(item, row.value);
    }

    method LinkItemRequest(item: nat, request: nat) returns (linked: bool)
      requires item < |db.items|
      modifies this`db
      ensures (db, if linked then Linked(item, request) else Idle) == Act(old(db), Asked(item, request), Link)
    {
      var row := db.items[item];
      if row.request.Some? && row.request.value != request {
        return false;
      }
      db := db.(items := db.items[item := row.(request := if row.request.Some? then row.request else Some(request))]);
      linked := true;
    }

    method CompleteRequest(request: nat, source: Source, text: string, revision: Option<nat>) returns (answer: nat)
      modifies this`db
      ensures forall item ::
        (db, Persisted(item, request, answer, source, revision)) == Act(old(db), Linked(item, request), Persist(source, text, revision))
    {
      var row := First(db.answers, ToRequest(request));
      if row.Some? {
        return row.value;
      }
      answer := |db.answers|;
      db := db.(answers := db.answers + [Answer(request, source, text, revision)]);
    }

    method AnswerByRequestId(me: Local) returns (me': Local)
      requires me.Linked?
      ensures (db, me') == Act(db, me, CheckExisting)
    {
      var row := First(db.answers, ToRequest(me.request));
      me' := if row.None? then me else Persisted(me.item, me.request, row.value, db.answers[row.value].source, None);
    }

    method StampRequest(me: Local)
      requires me.Persisted? && me.request < |db.requests|
      modifies this`db
      ensures (db, me) == Act(old(db), me, Stamp)
    {
      var row := db.requests[me.request];
      db := db.(requests := db.requests[me.request := row.(source := Some(me.source))]);
    }

    method MarkItemAnswering(me: Local)
      requires me.Linked? && me.item < |db.items|
      modifies this`db
      ensures (db, me) == Act(old(db), me, MarkAnswering)
    {
      var row := db.items[me.item];
      if row.status == Ready || row.status == Answering {
        db := db.(items := db.items[me.item := row.(status := Answering)]);
      }
    }

    method SaveMcqBatch(epoch: nat, results: seq<Mcqs.McqResult>)
      requires Clear(db.items) && Mcqs.Matches(results, PaperMcqs(db.items))
      modifies this`db
      ensures (db, Idle) == Act(old(db), Idle, SaveBatch(epoch, results))
      ensures epoch in db.batches
    {
      if epoch !in db.batches { db := db.(batches := db.batches[epoch := results]); }
    }

    method CompleteAnswerItem(me: Local)
      requires me.Persisted? && me.item < |db.items|
      modifies this`db
      ensures (db, Idle) == Act(old(db), me, Record)
    {
      var row := db.items[me.item];
      if row.status == Ready || row.status == Answering {
        row := row.(status := Answered, answer := Some(me.answer), source := Some(me.source), revision := me.revision, error := None);
      }
      db := db.(items := db.items[me.item := row]);
    }

    method FailAnswerItem(item: nat, code: string)
      requires item < |db.items|
      modifies this`db
      ensures (db, Idle) == Act(old(db), Idle, Fail(item, code))
    {
      var row := db.items[item];
      if row.status == Ready || row.status == Answering {
        row := row.(status := Failed, error := Some(code));
      }
      db := db.(items := db.items[item := row]);
    }

    method FinishAnswers() returns (workflow: Paper.Workflow)
      modifies this`db
      ensures (db, Idle) == Act(old(db), Idle, Finish)
      ensures workflow == if AnyOpen(db.items) then Paper.InAnswering else Classified(db.items)
    {
      if AnyOpen(db.items) {
        return Paper.InAnswering;
      }
      workflow := if AnyWith(db.items, Failed) then Paper.PartiallyCompleted else Paper.Completed;
      if !AnyWith(db.items, Answered) { workflow := Paper.FailedJob; }
      if db.paper.workflow == Paper.InAnswering { db := db.(paper := db.paper.(workflow := workflow)); }
    }

    method FailOpenItems()
      modifies this`db
      ensures db == old(db).(items := WithoutOpen(old(db).items))
    {
      ghost var target := WithoutOpen(db.items);
      var i := 0;
      while i < |db.items|
        invariant i <= |db.items| == |target|
        invariant db == old(db).(items := target[..i] + old(db).items[i..])
      {
        assert db.items[i] == old(db).items[i];
        FailAnswerItem(i, "MULTIPLE_ASK_ANSWER_FAILED");
        i := i + 1;
        assert db.items == target[..i] + old(db).items[i..];
      }
      assert db.items == target;
    }

    method FailAndFinish()
      modifies this`db
      ensures db == Finished(old(db).(items := WithoutOpen(old(db).items)))
    {
      FailOpenItems();
      var _ := FinishAnswers();
    }

    /** mark_queue_failure, in one transaction. */
    method MarkQueueFailure()
      requires Valid()
      modifies this
      ensures (db, Idle) == Act(old(db), Idle, FailRest)
      ensures Valid() && Evolves(old(db), db)
      ensures old(db).paper.workflow.InAnswering? ==> !AnyOpen(db.items) && db.paper.workflow == Classified(db.items)
    {
      OwnStatement(World(db, others), Idle, FailRest);
      if db.paper.workflow != Paper.InAnswering {
        return;
      }
      FailRestKeepsSound(db);
      FailAndFinish();
    }

    /** start_for_job; an InAnswering reply is its queue job's. */
    method StartForJob() returns (r: Result<Paper.Workflow>)
      modifies this`db
      ensures (db, Idle) == Act(old(db), Idle, Start(old(db).epoch + 1))
      ensures r.Failure? ==> db == old(db)
      ensures db != old(db) ==> old(db).paper.workflow.ReadyToAnswer? && r == Success(Paper.InAnswering)
      ensures r.Success? ==> r.value == db.paper.workflow && !AnyWith(db.items, NeedsCorrection)
      ensures r.Success? <==> !AnyWith(db.items, NeedsCorrection)
                              && (db.paper.workflow.InAnswering? || Ended(db.paper.workflow) || db.paper.workflow.Cancelled?)
    {
      if AnyWith(db.items, NeedsCorrection) {
        return Failure("MULTIPLE_ASK_ANSWERS_BLOCKED_BY_CORRECTION");
      }
      if db.paper.workflow == Paper.InAnswering || Ended(db.paper.workflow) || db.paper.workflow == Paper.Cancelled {
        return Success(db.paper.workflow);
      }
      if db.paper.workflow != Paper.ReadyToAnswer {
        return Failure("MULTIPLE_ASK_JOB_NOT_READY_TO_ANSWER");
      }
      db := db.(paper := db.paper.(workflow := Paper.InAnswering), epoch := db.epoch + 1);
      r := Success(Paper.InAnswering);
    }

    /** One statement in its own transaction. */
    method Do(me: Local, a: Action) returns (me': Local)
      requires Valid() && LocalSound(db, me)
      requires match a
               case Ask(item) => item < |db.items|
               case Fail(item, _) => item < |db.items| && me.Idle?
               case Link => me.Asked?
               case CheckExisting => me.Linked?
               case MarkAnswering => me.Linked?
               case Persist(_, _, _) => me.Linked?
               case Stamp => me.Persisted?
               case Record => me.Persisted?
               case Finish => me.Idle?
               case SaveBatch(_, results) => me.Idle? && Clear(db.items) && Mcqs.Matches(results, PaperMcqs(db.items))
               case _ => false
      modifies this
      ensures (db, me') == Act(old(db), me, a)
      ensures Valid() && LocalSound(db, me') && Evolves(old(db), db)
    {
      OwnStatement(World(db, others), me, a);
      match a
      case Ask(item) => me' := CreatePending(item);
      case Link =>
        var linked := LinkItemRequest(me.item, me.request);
        me' := if linked then Linked(me.item, me.request) else Idle;
      case Persist(source, text, revision) =>
        var answer := CompleteRequest(me.request, source, text, revision);
        me' := Persisted(me.item, me.request, answer, source, revision);
      case Record =>
        CompleteAnswerItem(me);
        me' := Idle;
      case Fail(item, code) =>
        FailAnswerItem(item, code);
        me' := Idle;
      case MarkAnswering =>
        MarkItemAnswering(me);
        me' := me;
      case CheckExisting =>
        me' := AnswerByRequestId(me);
      case Stamp =>
        StampRequest(me);
        me' := me;
      case SaveBatch(epoch, results) =>
        SaveMcqBatch(epoch, results);
        me' := me;
      case Finish =>
        var _ := FinishAnswers();
        me' := me;
    }

    /******* The worker *******/

    /** Others' steps, seen by a worker that holds something. */
    method Pause(me: Local)
      requires Valid() && LocalSound(db, me)
      modifies this
      ensures Valid() && LocalSound(db, me) && Evolves(old(db), db)
    {
      ghost var before := db;
      Meanwhile();
      LocalsStaySound(before, db, me);
    }

    /** Others' steps, and then one statement. */
    method Then(me: Local, a: Action) returns (me': Local)
      requires Valid() && LocalSound(db, me) && Clear(db.items)
      requires match a
               case CheckExisting => me.Linked?
               case MarkAnswering => me.Linked?
               case Persist(_, _, _) => me.Linked?
               case Stamp => me.Persisted?
               case Record => me.Persisted?
               case _ => false
      modifies this
      ensures Valid() && LocalSound(db, me') && Clear(db.items) && Evolves(old(db), db)
      ensures a.CheckExisting? ==> me' == me || (me'.Persisted? && me'.item == me.item)
      ensures a.Persist? ==> me'.Persisted? && me'.item == me.item
      ensures a.MarkAnswering? || a.Stamp? ==> me' == me
      ensures a.Record? ==> Settled(db.items, [me.item])
    {
      Pause(me);
      ghost var before := db;
      ClearStays(old(db).items, before.items);
      me' := Do(me, a);
      ClearStays(before.items, db.items);
      EvolvesTransitively(old(db), before, db);
      if a.Record? { RecordSettles(before, me); }
    }

    /** _candidate_request: the one request row of the item, linked to it. */
    method CandidateRequest(item: nat) returns (me: Local)
      requires Valid() && item < |db.items|
      modifies this
      ensures Valid() && Evolves(old(db), db) && LocalSound(db, me) && me.Linked? && me.item == item
      ensures Clear(old(db).items) ==> Clear(db.items)
    {
      Meanwhile();
      ghost var d1 := db;
      me := Do(Idle, Ask(item));
      ghost var d2 := db;
      EvolvesTransitively(old(db), d1, d2);
      Pause(me);
      ghost var d3 := db;
      EvolvesTransitively(old(db), d2, d3);
      LinkNeverConflicts(db, me);
      me := Do(me, Link);
      EvolvesTransitively(old(db), d3, db);
      if Clear(old(db).items) { ClearStays(old(db).items, db.items); }
    }

    /** Persists an answer unless one exists by then, stamps the request and settles the item. */
    method Complete(linked: Local, source: Source, text: string, revision: Option<nat>)
      requires Valid() && LocalSound(db, linked) && linked.Linked? && Clear(db.items)
      modifies this
      ensures Valid() && Evolves(old(db), db) && Settled(db.items, [linked.item])
    {
      var me := Then(linked, Persist(source, text, revision));
      ghost var d1 := db;
      me := Then(me, Stamp);
      ghost var d2 := db;
      EvolvesTransitively(old(db), d1, d2);
      me := Then(me, Record);
      EvolvesTransitively(old(db), d2, db);
    }

    /** An error after the answer was persisted: the row stays, and the item is failed. */
    method PersistThenFail(linked: Local, source: Source, text: string, revision: Option<nat>, code: string)
      requires Valid() && LocalSound(db, linked) && linked.Linked? && Clear(db.items)
      modifies this
      ensures Valid() && Evolves(old(db), db) && Settled(db.items, [linked.item])
    {
      var me := Then(linked, Persist(source, text, revision));
      ghost var persisted := db;
      FailItem(linked.item, code);
      EvolvesTransitively(old(db), persisted, db);
    }

    /** _existing_completion: relinks an answer persisted before a restart. */
    method ExistingCompletion(linked: Local) returns (done: bool)
      requires Valid() && LocalSound(db, linked) && linked.Linked? && Clear(db.items)
      modifies this
      ensures Valid() && Evolves(old(db), db) && LocalSound(db, linked) && Clear(db.items)
      ensures done ==> Settled(db.items, [linked.item])
    {
      var me := Then(linked, CheckExisting);
      done := me.Persisted?;
      if done {
        ghost var found := db;
        me := Then(me, Record);
        EvolvesTransitively(old(db), found, db);
      }
      LocalsStaySound(old(db), db, linked);
    }

    /** _fail_item. */
    method FailItem(item: nat, code: string)
      requires Valid() && item < |db.items| && Clear(db.items)
      modifies this
      ensures Valid() && Evolves(old(db), db) && Settled(db.items, [item])
    {
      Meanwhile();
      ghost var before := db;
      ClearStays(old(db).items, before.items);
      assert db.items[item].status != NeedsCorrection;
      var _ := Do(Idle, Fail(item, code));
      EvolvesTransitively(old(db), before, db);
    }

    /** _fail_mcq_batch. */
    method FailItems(ids: seq<nat>, code: string)
      requires Valid() && Clear(db.items) && forall i | i in ids :: i < |db.items|
      modifies this
      ensures Valid() && Evolves(old(db), db) && Settled(db.items, ids)
    {
      var k := 0;
      while k < |ids|
        invariant k <= |ids| && Valid() && Evolves(old(db), db) && Settled(db.items, ids[..k])
      {
        ghost var before := db;
        ClearStays(old(db).items, before.items);
        assert ids[k] in ids;
        FailItem(ids[k], code);
        EvolvesTransitively(old(db), before, db);
        SettledStays(before.items, db.items, ids[..k]);
        k := k + 1;
      }
    }

    /** Validates a response and saves it as the epoch's batch unless one is there by then. */
    method SaveValidated(snapshot: seq<Item>, epoch: nat) returns (flow: Flow)
      requires Valid() && ItemsEvolve(snapshot, db.items) && Clear(snapshot)
      modifies this
      ensures Valid() && Evolves(old(db), db)
      ensures flow.Done? ==> epoch in db.batches
    {
      var generated: Flow := *;
      if generated != Done {
        return generated;
      }
      var document: Mcqs.Json := *;
      McqIdsAreDistinct(snapshot);
      var checked := Mcqs.ValidateMcqResults(document, PaperMcqs(snapshot));
      if checked.Rejected? {
        return Handled("MULTIPLE_ASK_MCQ_RESPONSE_INVALID");
      }
      Meanwhile();
      ghost var before := db;
      ItemsEvolveTransitively(snapshot, old(db).items, before.items);
      ClearStays(snapshot, before.items);
      SameMcqs(snapshot, before.items);
      var _ := Do(Idle, SaveBatch(epoch, checked.value));
      EvolvesTransitively(old(db), before, db);
      flow := Done;
    }

    /** _answer_mcq_batch: the batch is generated, validated and saved once, then every MCQ that its
        snapshot does not show as answered is materialized from it. */
    method AnswerMcqBatch(mcqs: seq<nat>, snapshot: seq<Item>, epoch: nat) returns (flow: Flow)
      requires Valid() && ItemsEvolve(snapshot, db.items) && Clear(snapshot)
      requires forall i | i in mcqs :: i < |snapshot| && snapshot[i].form.mode.Mcq?
      modifies this
      ensures Valid() && Evolves(old(db), db)
      ensures flow.Done? ==> Settled(db.items, mcqs)
    {
      flow := Done;
      if epoch !in db.batches {
        flow := SaveValidated(snapshot, epoch);
        if flow != Done {
          return;
        }
      }
      var k := 0;
      while k < |mcqs|
        invariant k <= |mcqs| && Valid() && Evolves(old(db), db) && epoch in db.batches
        invariant Settled(db.items, mcqs[..k])
      {
        assert mcqs[k] in mcqs;
        ghost var before := db;
        ItemsEvolveTransitively(snapshot, old(db).items, before.items);
        flow := AnswerMcq(mcqs[k], snapshot, epoch);
        EvolvesTransitively(old(db), before, db);
        if flow != Done {
          return;
        }
        SettledStays(before.items, db.items, mcqs[..k]);
        assert mcqs[..k + 1] == mcqs[..k] + [mcqs[k]];
        k := k + 1;
      }
      assert mcqs[..k] == mcqs;
    }

    /** The lookup of an item's result in the saved batch. */
    method ResultOf(item: nat, epoch: nat) returns (result: Mcqs.McqResult)
      requires Valid() && epoch in db.batches && item < |db.items| && db.items[item].form.mode.Mcq?
      ensures result in db.batches[epoch] && result.id == IdOf(item)
    {
      LookupFindsOne(db, epoch, item);
      var k := 0;
      while db.batches[epoch][k].id != IdOf(item)
        invariant k < |db.batches[epoch]| && forall j | 0 <= j < k :: db.batches[epoch][j].id != IdOf(item)
        decreases |db.batches[epoch]| - k
      {
        k := k + 1;
      }
      result := db.batches[epoch][k];
    }

    method AnswerMcq(item: nat, snapshot: seq<Item>, epoch: nat) returns (flow: Flow)
      requires Valid() && ItemsEvolve(snapshot, db.items) && Clear(snapshot)
      requires item < |snapshot| && snapshot[item].form.mode.Mcq? && epoch in db.batches
      modifies this
      ensures Valid() && Evolves(old(db), db)
      ensures flow.Done? ==> Settled(db.items, [item])
    {
      ClearStays(snapshot, db.items);
      if snapshot[item].status == Answered {
        return Done;
      }
      var result := ResultOf(item, epoch);
      var problem: Flow := *;
      if problem != Done {
        return problem;
      }
      var me := CandidateRequest(item);
      ghost var d1 := db;
      var completed := ExistingCompletion(me);
      EvolvesTransitively(old(db), d1, db);
      if !completed {
        ghost var d2 := db;
        Complete(me, GeneralKnowledge, "Correct answer: " + result.answer + "\n\n" + result.explanation, None);
        EvolvesTransitively(old(db), d2, db);
      }
      flow := Done;
    }

    /** The approved-bank pass over a batch: each item ends settled or among the missed ones. */
    method CheckBatch(batch: seq<nat>) returns (missed: seq<Local>, raised: bool)
      requires Valid() && Clear(db.items) && forall i | i in batch :: i < |db.items|
      modifies this
      ensures Valid() && Evolves(old(db), db)
      ensures forall m | m in missed :: m.Linked? && LocalSound(db, m)
      ensures !raised ==> forall i | i in batch :: (i < |db.items| && Over(db.items[i])) || exists m | m in missed :: m.item == i
    {
      missed, raised := [], false;
      var k := 0;
      while k < |batch|
        invariant k <= |batch| && Valid() && Evolves(old(db), db)
        invariant forall m | m in missed :: m.Linked? && LocalSound(db, m)
        invariant forall i | i in batch[..k] :: (i < |db.items| && Over(db.items[i])) || exists m | m in missed :: m.item == i
      {
        ghost var before := db;
        ClearStays(old(db).items, before.items);
        assert batch[k] in batch;
        var miss, escapes := CheckItem(batch[k]);
        EvolvesTransitively(old(db), before, db);
        StillCovered(before, db, batch[..k], missed);
        if escapes {
          raised := true;
          return;
        }
        ghost var earlier := missed;
        if miss.Some? { missed := missed + [miss.value]; }
        assert forall m | m in earlier :: m in missed;
        assert miss.Some? ==> miss.value in missed && miss.value.item == batch[k];
        assert miss.None? ==> batch[k] in [batch[k]];
        assert batch[..k + 1] == batch[..k] + [batch[k]];
        k := k + 1;
      }
      assert batch[..k] == batch;
    }

    method CheckItem(item: nat) returns (miss: Option<Local>, escapes: bool)
      requires Valid() && Clear(db.items) && item < |db.items|
      modifies this
      ensures Valid() && Evolves(old(db), db)
      ensures miss.Some? ==> miss.value.Linked? && miss.value.item == item && LocalSound(db, miss.value)
      ensures miss.None? && !escapes ==> Settled(db.items, [item])
    {
      miss, escapes := None, false;
      // Any error of any of the statements below is handled by failing the item.
      var early: Flow := *;
      if early != Done {
        if early.Handled? { FailItem(item, early.code); } else { escapes := true; }
        return;
      }
      var me := CandidateRequest(item);
      ghost var d1 := db;
      var completed := ExistingCompletion(me);
      EvolvesTransitively(old(db), d1, db);
      if completed {
        return;
      }
      ghost var d2 := db;
      me := Then(me, MarkAnswering);
      ghost var d3 := db;
      EvolvesTransitively(old(db), d2, d3);
      miss, escapes := AskBank(me);
      EvolvesTransitively(old(db), d3, db);
    }

    /** find_approved_without_embedding, and the completion of what it finds. */
    method AskBank(me: Local) returns (miss: Option<Local>, escapes: bool)
      requires Valid() && Clear(db.items) && LocalSound(db, me) && me.Linked?
      modifies this
      ensures Valid() && Evolves(old(db), db)
      ensures miss.Some? ==> miss.value == me && LocalSound(db, me)
      ensures miss.None? && !escapes ==> Settled(db.items, [me.item])
    {
      miss, escapes := None, false;
      var lookup: Flow := *;
      var revision: Option<nat> := *;
      match lookup {
        case Escapes => escapes := true;
        case Handled(code) => FailItem(me.item, code);
        case Done =>
          if revision.Some? {
            var text: string := *;
            var recorded: bool := *;
            if recorded {
              Complete(me, ApprovedBank, text, revision);
            } else {
              PersistThenFail(me, ApprovedBank, text, revision, "");
            }
          } else {
            miss := Some(me);
          }
      }
    }

    /** Retrieval and generation for the missed items, one vector each. */
    method AnswerMissed(missed: seq<Local>, vectors: seq<nat>) returns (raised: bool)
      requires Valid() && Clear(db.items) && forall m | m in missed :: m.Linked? && LocalSound(db, m)
      modifies this
      ensures Valid() && Evolves(old(db), db)
      ensures !raised && |vectors| >= |missed| ==> forall m | m in missed :: Settled(db.items, [m.item])
    {
      raised := false;
      var k := 0;
      while k < |missed| && k < |vectors|
        invariant k <= |missed| && Valid() && Evolves(old(db), db)
        invariant forall m | m in missed :: LocalSound(db, m)
        invariant forall m | m in missed[..k] :: Settled(db.items, [m.item])
      {
        ghost var before := db;
        ClearStays(old(db).items, before.items);
        raised := AnswerOne(missed[k]);
        EvolvesTransitively(old(db), before, db);
        if raised {
          return;
        }
        forall m | m in missed ensures LocalSound(db, m) { LocalsStaySound(before, db, m); }
        forall m | m in missed[..k] ensures Settled(db.items, [m.item]) { SettledStays(before.items, db.items, [m.item]); }
        k := k + 1;
      }
      if |vectors| >= |missed| { assert missed[..k] == missed; }
    }

    method AnswerOne(me: Local) returns (raised: bool)
      requires Valid() && Clear(db.items) && LocalSound(db, me) && me.Linked?
      modifies this
      ensures Valid() && Evolves(old(db), db)
      ensures !raised ==> Settled(db.items, [me.item])
    {
      raised := false;
      var generated: Flow := *;
      var source: Source := *;
      var revision: Option<nat> := *;
      var text: string := *;
      match generated {
        case Escapes => raised := true;
        case Handled(code) =>
          var persisted: bool := *;
          if persisted {
            PersistThenFail(me, source, text, revision, code);
          } else {
            FailItem(me.item, code);
          }
        case Done => Complete(me, source, text, revision);
      }
    }

    /** The MCQ stage: all pending MCQs are answered from one batch, or failed together. */
    method McqStage(snapshot: seq<Item>, epoch: nat) returns (raised: bool)
      requires Valid() && ItemsEvolve(snapshot, db.items) && Clear(snapshot)
      modifies this
      ensures Valid() && Evolves(old(db), db)
      ensures !raised ==> McqsSettled(db.items)
    {
      var mcqs := Keep(Indices(|snapshot|), IsMcq(snapshot));
      var pending := Keep(mcqs, IsOpenIn(snapshot));
      raised := false;
      ghost var settled := pending;
      if pending != [] {
        var flow := AnswerMcqBatch(mcqs, snapshot, epoch);
        if flow.Escapes? {
          return true;
        }
        if flow.Handled? {
          ghost var before := db;
          ItemsEvolveTransitively(snapshot, old(db).items, before.items);
          ClearStays(snapshot, before.items);
          FailItems(pending, flow.code);
          EvolvesTransitively(old(db), before, db);
        } else {
          assert Settled(db.items, pending) by { forall i | i in pending ensures i in mcqs {} }
        }
      }
      ItemsEvolveTransitively(snapshot, old(db).items, db.items);
      PendingCovers(snapshot, db.items, mcqs, pending);
    }

    /** The written stage of one batch: bank, embeddings, retrieval and generation. */
    method WrittenStage(batch: seq<nat>) returns (raised: bool)
      requires Valid() && Clear(db.items) && forall i | i in batch :: i < |db.items|
      modifies this
      ensures Valid() && Evolves(old(db), db)
      ensures !raised ==> Settled(db.items, batch)
    {
      var missed, escaped := CheckBatch(batch);
      if escaped {
        return true;
      }
      // embed_queries itself refuses to return any other number of vectors.
      var vectors: seq<nat> := *;
      if |vectors| != |missed| {
        return true;
      }
      ghost var checked := db;
      ClearStays(old(db).items, checked.items);
      raised := AnswerMissed(missed, vectors);
      EvolvesTransitively(old(db), checked, db);
      if !raised {
        ClearStays(checked.items, db.items);
        forall i | i in batch ensures i < |db.items| && Over(db.items[i]) {
          if m :| m in missed && m.item == i { assert i in [m.item] && Settled(db.items, [m.item]); }
        }
      }
    }

    /** finish_answers, called when nothing is open any more; others may get in before it.  The
        returned status is always the items' classification; the stored one is the same exactly
        when the transaction found the paper in answering, or already in that status. */
    method FinishSettled() returns (workflow: Paper.Workflow, ghost found: Paper.Workflow)
      requires Valid() && OpenSet(db.items) == {} && Clear(db.items)
      modifies this
      ensures Valid() && Evolves(old(db), db)
      ensures !AnyOpen(db.items) && workflow == Classified(db.items)
      ensures db.paper.workflow == workflow <==> found.InAnswering? || found == workflow
      ensures old(db).paper.workflow.InAnswering? && !db.overridden ==> db.paper.workflow == workflow
    {
      Meanwhile();
      ghost var before := db;
      found := db.paper.workflow;
      OpenOnlyShrinks(old(db).items, db.items);
      NothingOpen(db.items);
      OwnStatement(World(db, others), Idle, Finish);
      workflow := FinishAnswers();
      EvolvesTransitively(old(db), before, db);
      if old(db).paper.workflow.InAnswering? && !db.overridden { EndedAsClassified(old(db), before); }
    }

    /** One queue run of the answer job.  Returning normally it has settled every MCQ and its
        whole batch: it chains with strictly fewer items open than when it began, or it ends with
        nothing open and returns the items' classification, which is also the stored status unless
        another writer overrode that. */
    method AnswerPaper(epoch: nat, batchSize: nat) returns (r: Outcome)
      requires Valid() && batchSize > 0
      modifies this
      ensures Valid() && Evolves(old(db), db) && !r.Crashed?
      ensures r.Stale? <==> !old(db).paper.workflow.InAnswering? || old(db).epoch != epoch
      ensures r.Stale? ==> db == old(db) && r.workflow == db.paper.workflow
      ensures r.Chained? ==> Clear(old(db).items) && McqsSettled(db.items) && ChainsOn(old(db).items, db.items, r.left)
      ensures r.Finishes? ==> !AnyOpen(db.items) && r.workflow == Classified(db.items)
      ensures r.Finishes? && !db.overridden ==> db.paper.workflow == r.workflow
    {
      if db.paper.workflow != Paper.InAnswering || db.epoch != epoch {
        return Stale(db.paper.workflow);
      }
      var snapshot := db.items;
      if AnyWith(snapshot, NeedsCorrection) {
        return Raised;
      }
      Meanwhile();
      ghost var d1 := db;
      var raised := McqStage(snapshot, epoch);
      EvolvesTransitively(old(db), d1, db);
      if raised {
        return Raised;
      }
      r := AnswerBatch(batchSize, old(db));
    }

    method AnswerBatch(batchSize: nat, ghost start: Db) returns (r: Outcome)
      requires Valid() && batchSize > 0 && Evolves(start, db) && McqsSettled(db.items)
      requires Clear(start.items) && start.paper.workflow.InAnswering?
      modifies this
      ensures Valid() && Evolves(start, db) && !r.Stale? && !r.Crashed?
      ensures r.Chained? ==> McqsSettled(db.items) && ChainsOn(start.items, db.items, r.left)
      ensures r.Finishes? ==> !AnyOpen(db.items) && r.workflow == Classified(db.items)
      ensures r.Finishes? && !db.overridden ==> db.paper.workflow == r.workflow
    {
      ghost var mcqsDone := db;
      ClearStays(start.items, mcqsDone.items);
      Meanwhile();
      ghost var before := db;
      EvolvesTransitively(start, mcqsDone, before);
      McqsStaySettled(mcqsDone.items, before.items);
      OpenOnlyShrinks(start.items, before.items);
      ClearStays(start.items, before.items);
      var remaining := Remaining(db.items);
      RemainingIsOpen(before.items);
      var batch := if |remaining| <= batchSize then remaining else remaining[..batchSize];
      var raised := AnswerFirst(batch);
      EvolvesTransitively(start, before, db);
      if raised {
        return Raised;
      }
      if |remaining| > |batch| {
        return Chained(|remaining| - |batch|);
      }
      r := EndOf(start);
    }

    /** Answers the first of the remaining items; what is open afterwards is among the others. */
    method AnswerFirst(batch: seq<nat>) returns (raised: bool)
      requires Valid() && Clear(db.items) && McqsSettled(db.items) && batch <= Remaining(db.items)
      modifies this
      ensures Valid() && Evolves(old(db), db)
      ensures !raised ==> McqsSettled(db.items) && |OpenSet(db.items)| <= |Remaining(old(db).items)| - |batch|
    {
      ghost var remaining := Remaining(db.items);
      raised := false;
      if batch != [] {
        assert forall i | i in batch :: i in remaining;
        raised := WrittenStage(batch);
      }
      if !raised {
        McqsStaySettled(old(db).items, db.items);
        assert remaining[..|batch|] == batch;
        LeftOver(old(db).items, db, |batch|);
        SetOfIsNoLarger(remaining[|batch|..]);
        SubsetSize(OpenSet(db.items), SetOf(remaining[|batch|..]));
      }
    }

    method EndOf(ghost start: Db) returns (r: Outcome)
      requires Valid() && Evolves(start, db) && Clear(start.items) && start.paper.workflow.InAnswering?
      requires |OpenSet(db.items)| == 0
      modifies this
      ensures Valid() && Evolves(start, db)
      ensures r.Finishes? && !AnyOpen(db.items) && r.workflow == Classified(db.items)
      ensures !db.overridden ==> db.paper.workflow == r.workflow
    {
      ghost var settled := db;
      ClearStays(start.items, settled.items);
      var workflow, found := FinishSettled();
      EvolvesTransitively(start, settled, db);
      if !db.overridden && !settled.paper.workflow.InAnswering? {
        EndedAsClassified(start, settled);
        EndedAsClassified(start, db);
      }
      r := Finishes(workflow);
    }

    /** All deliveries of one queue job: an attempt may raise, or crash between any two statements
        (what it did until then is among the steps of others), and the job is leased again until it
        has been attempted maxAttempts times.  When the last attempt raised, the worker marks the
        queue failure. */
    method RunJob(epoch: nat, batchSize: nat, maxAttempts: nat) returns (r: Outcome)
      requires Valid() && batchSize > 0 && maxAttempts > 0
      modifies this
      ensures Valid() && Evolves(old(db), db)
      ensures r.Chained? ==> Clear(db.items) && (Clear(old(db).items) ==> ChainsOn(old(db).items, db.items, r.left))
      ensures r.Chained? ==> 0 < r.left && |OpenSet(db.items)| <= r.left
      ensures r.Finishes? ==> !AnyOpen(db.items) && r.workflow == Classified(db.items)
      ensures r.Finishes? && !db.overridden ==> db.paper.workflow == r.workflow
      ensures r.Raised? && old(db).paper.workflow.InAnswering? && !db.overridden ==>
                !AnyOpen(db.items) && db.paper.workflow == Classified(db.items)
      ensures r.Stale? && old(db).paper.workflow.InAnswering? && old(db).epoch == epoch && !db.overridden ==>
                !AnyOpen(db.items) && db.paper.workflow == Classified(db.items)
    {
      var attempts := 0;
      r := Crashed;
      while attempts < maxAttempts && (r.Raised? || r.Crashed?)
        invariant attempts <= maxAttempts && Valid() && Evolves(old(db), db) && !r.Stale? && !r.Chained? && !r.Finishes?
        decreases maxAttempts - attempts
      {
        ghost var d1 := db;
        Meanwhile();
        ghost var d2 := db;
        EvolvesTransitively(old(db), d1, d2);
        attempts := attempts + 1;
        var crashes: bool := *;
        if crashes {
          r := Crashed;
        } else {
          r := AnswerPaper(epoch, batchSize);
          EvolvesTransitively(old(db), d2, db);
          if r.Chained? {
            ClearStays(d2.items, db.items);
            if Clear(old(db).items) { ChainsOnFromBefore(old(db).items, d2.items, db.items, r.left); }
          }
          if !r.Raised? {
            return;
          }
        }
      }
      if r.Raised? { GiveUp(old(db)); }
    }

    method GiveUp(ghost start: Db)
      requires Valid() && Evolves(start, db)
      modifies this
      ensures Valid() && Evolves(start, db)
      ensures start.paper.workflow.InAnswering? && !db.overridden ==>
                !AnyOpen(db.items) && db.paper.workflow == Classified(db.items)
    {
      ghost var d1 := db;
      Meanwhile();
      ghost var d2 := db;
      EvolvesTransitively(start, d1, d2);
      MarkQueueFailure();
      EvolvesTransitively(start, d2, db);
      if start.paper.workflow.InAnswering? && !db.overridden { EndedAsClassified(start, d2); }
    }

    /** The whole chain of jobs of one epoch, each attempted up to maxAttempts times.  Their keys
        strictly fall, so none of them can name a job that is already there; and unless the paper's
        status was overridden, or a job's last attempt crashed, the chain ends with nothing open and
        the status that the items say. */
    method AnswerChain(epoch: nat, batchSize: nat, maxAttempts: nat) returns (keys: seq<nat>, r: Outcome)
      requires Valid() && batchSize > 0 && maxAttempts > 0
      modifies this
      ensures Valid() && Evolves(old(db), db) && !r.Chained?
      ensures Falls(keys)
      ensures Clear(old(db).items) ==> |keys| < |OpenSet(old(db).items)| || keys == []
      ensures r.Finishes? ==> !AnyOpen(db.items) && r.workflow == Classified(db.items)
      ensures old(db).paper.workflow.InAnswering? && !db.overridden && (r.Finishes? || r.Raised? || (r.Stale? && old(db).epoch == epoch)) ==>
                !AnyOpen(db.items) && db.paper.workflow == Classified(db.items)
    {
      keys := [];
      r := RunJob(epoch, batchSize, maxAttempts);
      while r.Chained?
        invariant Valid() && Evolves(old(db), db)
        invariant r.Chained? ==> Clear(db.items) && 0 < r.left && |OpenSet(db.items)| <= r.left
        invariant r.Chained? && Clear(old(db).items) ==> r.left + |keys| < |OpenSet(old(db).items)|
        invariant r.Chained? ==> Falls(keys + [r.left])
        invariant Falls(keys)
        invariant Clear(old(db).items) ==> |keys| < |OpenSet(old(db).items)| || keys == []
        invariant r.Finishes? ==> !AnyOpen(db.items) && r.workflow == Classified(db.items)
        invariant old(db).paper.workflow.InAnswering? && !db.overridden
                  && (r.Finishes? || r.Raised? || (r.Stale? && old(db).epoch == epoch)) ==>
                    !AnyOpen(db.items) && db.paper.workflow == Classified(db.items)
        decreases if r.Chained? then r.left + 1 else 0
      {
        keys := keys + [r.left];
        ghost var before := db;
        r := RunJob(epoch, batchSize, maxAttempts);
        EvolvesTransitively(old(db), before, db);
        if r.Chained? { FallsOn(keys, r.left); }
      }
    }
  }

  lemma RecordSettles(db: Db, me: Local)
    requires LocalSound(db, me) && me.Persisted? && Clear(db.items)
    ensures Settled(Act(db, me, Record).0.items, [me.item])
  {
    assert db.items[me.item].status != NeedsCorrection;
  }

  lemma ItemsEvolveTransitively(a: seq<Item>, b: seq<Item>, c: seq<Item>)
    requires ItemsEvolve(a, b) && ItemsEvolve(b, c)
    ensures ItemsEvolve(a, c)
  {
    forall i | 0 <= i < |a| ensures ItemEvolves(a[i], c[i]) {
      assert ItemEvolves(a[i], b[i]) && ItemEvolves(b[i], c[i]);
    }
  }

  // Once the pending MCQs of a snapshot are settled, all are.
  lemma PendingCovers(snapshot: seq<Item>, items: seq<Item>, mcqs: seq<nat>, pending: seq<nat>)
    requires ItemsEvolve(snapshot, items) && Clear(snapshot) && Settled(items, pending)
    requires mcqs == Keep(Indices(|snapshot|), IsMcq(snapshot)) && pending == Keep(mcqs, IsOpenIn(snapshot))
    ensures McqsSettled(items)
  {
    ClearStays(snapshot, items);
    forall i | 0 <= i < |items| && items[i].form.mode.Mcq? ensures Over(items[i]) {
      assert i in mcqs && snapshot[i].status != NeedsCorrection;
      if Open(snapshot[i]) { assert i in pending; }
    }
  }

  // An item checked earlier stays settled or missed while other rows move on.
  lemma StillCovered(a: Db, b: Db, ids: seq<nat>, missed: seq<Local>)
    requires Evolves(a, b)
    requires forall m | m in missed :: m.Linked? && LocalSound(a, m)
    requires forall i | i in ids :: (i < |a.items| && Over(a.items[i])) || exists m | m in missed :: m.item == i
    ensures forall m | m in missed :: LocalSound(b, m)
    ensures forall i | i in ids :: (i < |b.items| && Over(b.items[i])) || exists m | m in missed :: m.item == i
  {
    forall m | m in missed ensures LocalSound(b, m) { LocalsStaySound(a, b, m); }
    forall i | i in ids && i < |a.items| ensures Over(a.items[i]) ==> Over(b.items[i]) {
      assert ItemEvolves(a.items[i], b.items[i]);
    }
  }
}
