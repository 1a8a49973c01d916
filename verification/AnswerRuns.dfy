/** Whole runs of the answer tables: what the paper's own theorems say of them, when an item, its
    request and its answer agree on the source, and runs from a fresh paper in which things part. */
module AnswerRuns {
  import opened Wrappers
  import opened Sequences
  import opened AnswerTables
  import opened AnswerInvariants
  import Paper = PaperExtraction

  /******* The paper within the run *******/

  function Held(workers: map<nat, Local>): map<nat, Paper.Local> {
    map c | c in workers :: PaperLocal(workers[c])
  }

  function PaperWorld(w: World): Paper.World {
    Paper.World(w.db.paper, Held(w.workers))
  }

  // A step that leaves the paper and its worker alone.
  function Nothing(db: Db): Paper.Action {
    Paper.Correct(|db.paper.items|)
  }

  // What a step is to the paper: one of its own transactions, or at most the worker moving on.
  function PaperAction(db: Db, me: Local, a: Action): Paper.Action {
    match a
    case OnPaper(step) => if JobStep(step) then step else Nothing(db)
    case Extract(forms) => Paper.WriteItems(ClearOf(forms))
    case CorrectItem(i, form) => if form.mode.NotClear? then Nothing(db) else Paper.Correct(i)
    case Start(epoch) => if db.epoch + 1 == epoch then Paper.StartAnswers else Nothing(db)
    case Finish => if AnyOpen(db.items) then Nothing(db) else Paper.FinishAnswers(Classified(db.items))
    case FailRest => Paper.FinishAnswers(Classified(WithoutOpen(db.items)))
    case _ => if Act(db, me, a).1 == me then Nothing(db) else Paper.Crash
  }

  lemma UnclearAlike(items: seq<Item>, rows: seq<Paper.Item>)
    requires Aligned(items, rows)
    ensures Paper.AnyUnclear(rows) <==> AnyWith(items, NeedsCorrection)
  {
    forall i | 0 <= i < |items| ensures items[i].status == NeedsCorrection <==> !rows[i].clear {}
  }

  // The step is to the paper what PaperAction says.
  predicate Refines(db: Db, me: Local, a: Action) {
    var (db', me') := Act(db, me, a);
    (db'.paper, PaperLocal(me')) == Paper.Act(db.paper, PaperLocal(me), PaperAction(db, me, a))
  }

  lemma FailRestRefines(db: Db, me: Local)
    ensures Refines(db, me, FailRest)
  {
    var rest := WithoutOpen(db.items);
    forall i | 0 <= i < |rest| ensures !Open(rest[i]) {}
  }

  lemma CorrectionRefines(db: Db, me: Local, i: nat, form: Form)
    requires Aligned(db.items, db.paper.items)
    ensures Refines(db, me, CorrectItem(i, form))
  {
  }

  lemma StartRefines(db: Db, me: Local, epoch: nat)
    requires Aligned(db.items, db.paper.items)
    ensures Refines(db, me, Start(epoch))
  {
    UnclearAlike(db.items, db.paper.items);
  }

  lemma ActRefinesPaper(db: Db, me: Local, a: Action)
    requires DbSound(db)
    ensures Refines(db, me, a)
  {
    match a
    case CorrectItem(i, form) => CorrectionRefines(db, me, i, form);
    case Start(epoch) => StartRefines(db, me, epoch);
    case FailRest => FailRestRefines(db, me);
    case _ =>
  }

  function PaperStep(w: World, st: Step): Paper.Step {
    Paper.Step(st.worker, PaperAction(w.db, LocalOf(w, st.worker), st.action))
  }

  function PaperSteps(w: World, steps: seq<Step>): (r: seq<Paper.Step>)
    decreases steps
  {
    if steps == [] then [] else [PaperStep(w, steps[0])] + PaperSteps(Next(w, steps[0]), steps[1..])
  }

  lemma NextRefinesPaper(w: World, st: Step)
    requires Sound(w)
    ensures PaperWorld(Next(w, st)) == Paper.Next(PaperWorld(w), PaperStep(w, st))
  {
    ActRefinesPaper(w.db, LocalOf(w, st.worker), st.action);
    assert Paper.LocalOf(PaperWorld(w), st.worker) == PaperLocal(LocalOf(w, st.worker));
    var me := Act(w.db, LocalOf(w, st.worker), st.action).1;
    assert Held(w.workers[st.worker := me]) == Held(w.workers)[st.worker := PaperLocal(me)];
  }

  /** Seen from the paper, every run of all these workers is a run of its own transactions. */
  lemma {:induction false} RunRefinesPaper(w: World, steps: seq<Step>)
    requires Sound(w)
    ensures PaperWorld(Run(w, steps)) == Paper.Run(PaperWorld(w), PaperSteps(w, steps))
    decreases steps
  {
    if steps != [] {
      var rest := PaperSteps(Next(w, steps[0]), steps[1..]);
      NextRefinesPaper(w, steps[0]);
      NextKeepsSound(w, steps[0]);
      RunRefinesPaper(Next(w, steps[0]), steps[1..]);
      Paper.RunFront(PaperWorld(w), PaperStep(w, steps[0]), rest);
    }
  }

  /** So whatever its answering does, a paper is charged and refunded at most once. */
  lemma AnsweredPaperChargedOnce(w: World, steps: seq<Step>)
    requires Sound(w)
    ensures var row := Run(w, steps).db.paper.row;
            && Paper.Moves(PaperWorld(w), PaperSteps(w, steps), Paper.NoRow, Paper.Charged)
               == (if w.db.paper.row.NoRow? && !row.NoRow? then 1 else 0)
            && Paper.Moves(PaperWorld(w), PaperSteps(w, steps), Paper.Charged, Paper.Refunded)
               == (if !w.db.paper.row.Refunded? && row.Refunded? then 1 else 0)
  {
    RunRefinesPaper(w, steps);
    Paper.ChargedOnceRefundedOnce(PaperWorld(w), PaperSteps(w, steps));
  }

  /******* Which source is reported *******/

  // The stamp of a request is its answer's source.
  predicate StampAgrees(db: Db, r: nat)
    requires r < |db.requests|
  {
    db.requests[r].source.Some? ==>
      exists a | 0 <= a < |db.answers| :: db.answers[a].request == r && Some(db.answers[a].source) == db.requests[r].source
  }

  predicate ItemAgrees(db: Db, i: nat)
    requires i < |db.items|
  {
    var row := db.items[i];
    row.answer.Some? ==> row.answer.value < |db.answers| && row.source == Some(db.answers[row.answer.value].source)
  }

  predicate SourcesAgree(db: Db) {
    && (forall r | 0 <= r < |db.requests| :: StampAgrees(db, r))
    && (forall i | 0 <= i < |db.items| :: ItemAgrees(db, i))
  }

  // The worker completes with another source than the persisted answer has.
  predicate Discordant(db: Db, me: Local) {
    me.Persisted? && me.answer < |db.answers| && db.answers[me.answer].source != me.source
  }

  predicate WritesDiscord(db: Db, me: Local, a: Action) {
    Discordant(db, me) && (a.Stamp? || (a.Record? && me.item < |db.items| && Open(db.items[me.item])))
  }

  // Steps that touch no request, no answer and no settled item.
  lemma RowsStayAgreed(db: Db, db': Db)
    requires DbSound(db) && DbSound(db') && SourcesAgree(db) && db'.requests == db.requests && db'.answers == db.answers
    requires forall i | 0 <= i < |db'.items| && db'.items[i].answer.Some? ::
               i < |db.items| && db.items[i].answer == db'.items[i].answer && db.items[i].source == db'.items[i].source
    ensures SourcesAgree(db')
  {
    forall r | 0 <= r < |db'.requests| ensures StampAgrees(db', r) { assert StampAgrees(db, r); }
    forall i | 0 <= i < |db'.items| ensures ItemAgrees(db', i) {
      if i < |db.items| { assert ItemAgrees(db, i); }
    }
  }

  lemma TablesStayAgreed(db: Db, db': Db)
    requires SourcesAgree(db) && db'.items == db.items && AnswersEvolve(db.answers, db'.answers)
    requires forall r | 0 <= r < |db'.requests| && db'.requests[r].source.Some? ::
               r < |db.requests| && db.requests[r].source == db'.requests[r].source
    ensures SourcesAgree(db')
  {
    forall r | 0 <= r < |db'.requests| && db'.requests[r].source.Some? ensures StampAgrees(db', r) {
      assert StampAgrees(db, r);
      var a :| 0 <= a < |db.answers| && db.answers[a].request == r && Some(db.answers[a].source) == db.requests[r].source;
      assert db'.answers[a].request == r;
    }
    forall i | 0 <= i < |db'.items| ensures ItemAgrees(db', i) { assert ItemAgrees(db, i); }
  }

  lemma StampExactly(db: Db, me: Local)
    requires DbSound(db) && LocalSound(db, me) && SourcesAgree(db)
    ensures SourcesAgree(Act(db, me, Stamp).0) <==> !WritesDiscord(db, me, Stamp)
  {
    if me.Persisted? {
      var db' := Act(db, me, Stamp).0;
      forall r | 0 <= r < |db'.requests| && r != me.request ensures StampAgrees(db', r) { assert StampAgrees(db, r); }
      forall i | 0 <= i < |db'.items| ensures ItemAgrees(db', i) { assert ItemAgrees(db, i); }
      assert db'.answers[me.answer].request == me.request;
      if WritesDiscord(db, me, Stamp) { assert !StampAgrees(db', me.request); }
    }
  }

  lemma RecordExactly(db: Db, me: Local)
    requires DbSound(db) && LocalSound(db, me) && SourcesAgree(db)
    ensures SourcesAgree(Act(db, me, Record).0) <==> !WritesDiscord(db, me, Record)
  {
    if me.Persisted? {
      var db' := Act(db, me, Record).0;
      forall r | 0 <= r < |db'.requests| ensures StampAgrees(db', r) { assert StampAgrees(db, r); }
      forall i | 0 <= i < |db'.items| && i != me.item ensures ItemAgrees(db', i) { assert ItemAgrees(db, i); }
      assert ItemAgrees(db, me.item);
      if WritesDiscord(db, me, Record) { assert !ItemAgrees(db', me.item); }
    }
  }

  /** A step makes an item's source or a request's stamp differ from the persisted answer's exactly
      when it stamps, or settles an open item, for a worker that holds another source. */
  lemma StepSourcesExactly(db: Db, me: Local, a: Action)
    requires DbSound(db) && LocalSound(db, me) && SourcesAgree(db)
    ensures SourcesAgree(Act(db, me, a).0) <==> !WritesDiscord(db, me, a)
  {
    ActKeepsSound(db, me, a);
    var db' := Act(db, me, a).0;
    if a.Stamp? {
      StampExactly(db, me);
    } else if a.Record? {
      RecordExactly(db, me);
    } else if a.Ask? || a.Persist? || a.ApproveAnswer? {
      TablesStayAgreed(db, db');
    } else {
      UntouchedAnswers(db, me, a);
      RowsStayAgreed(db, db');
    }
  }

  lemma UntouchedAnswers(db: Db, me: Local, a: Action)
    requires DbSound(db) && !a.Stamp? && !a.Record? && !a.Ask? && !a.Persist? && !a.ApproveAnswer?
    ensures var db' := Act(db, me, a).0;
            && db'.requests == db.requests && db'.answers == db.answers
            && forall i | 0 <= i < |db'.items| && db'.items[i].answer.Some? ::
                 i < |db.items| && db.items[i].answer == db'.items[i].answer && db.items[i].source == db'.items[i].source
  {
    match a
    case Extract(forms) => NewItemsHaveNoAnswer(db.items, forms);
    case FailRest =>
      forall i | 0 <= i < |db.items|
        ensures WithoutOpen(db.items)[i].answer == db.items[i].answer && WithoutOpen(db.items)[i].source == db.items[i].source {}
    case _ =>
  }

  lemma NewItemsHaveNoAnswer(items: seq<Item>, forms: seq<Form>)
    ensures forall i | |items| <= i < |items + NewItems(forms)| :: (items + NewItems(forms))[i].answer.None?
  {
  }

  predicate AlwaysAgree(w: World, steps: seq<Step>)
    decreases steps
  {
    SourcesAgree(w.db) && (steps != [] ==> AlwaysAgree(Next(w, steps[0]), steps[1..]))
  }

  predicate EverWritesDiscord(w: World, steps: seq<Step>)
    decreases steps
  {
    steps != [] && (WritesDiscord(w.db, LocalOf(w, steps[0].worker), steps[0].action) || EverWritesDiscord(Next(w, steps[0]), steps[1..]))
  }

  /** Over a whole run items, requests and answers agree on the source at every point exactly when
      the run holds no such write. */
  lemma {:induction false} RunSourcesExactly(w: World, steps: seq<Step>)
    requires Sound(w) && SourcesAgree(w.db)
    ensures AlwaysAgree(w, steps) <==> !EverWritesDiscord(w, steps)
    decreases steps
  {
    if steps != [] {
      StepSourcesExactly(w.db, LocalOf(w, steps[0].worker), steps[0].action);
      NextKeepsSound(w, steps[0]);
      if SourcesAgree(Next(w, steps[0]).db) { RunSourcesExactly(Next(w, steps[0]), steps[1..]); }
    }
  }

  /** And a worker comes to hold another source in one way only: it persists when an answer with
      a different source is already there. */
  lemma DiscordComesFromLosing(db: Db, me: Local, a: Action)
    requires DbSound(db) && LocalSound(db, me) && !Discordant(db, me)
    ensures Discordant(Act(db, me, a).0, Act(db, me, a).1) <==>
      && a.Persist? && me.Linked?
      && exists k | 0 <= k < |db.answers| :: db.answers[k].request == me.request && db.answers[k].source != a.source
  {
    ActKeepsSound(db, me, a);
    if a.Persist? && me.Linked? {
      var found := First(db.answers, ToRequest(me.request));
      if found.Some? {
        forall k | 0 <= k < |db.answers| && db.answers[k].request == me.request ensures k == found.value {}
        assert db.answers[found.value].request == me.request;
      }
    }
  }

  /** A worker that finds an existing answer reports that row's source, but drops its approved
      revision: it reports the row's revision exactly when there is none. */
  lemma RelinkedExactly(db: Db, me: Local, a: nat)
    requires DbSound(db) && LocalSound(db, me) && me.Linked? && Open(db.items[me.item])
    requires a < |db.answers| && db.answers[a].request == me.request
    ensures var (db1, me1) := Act(db, me, CheckExisting);
            var row := Act(db1, me1, Record).0.items[me.item];
            && row.status.Answered? && row.answer == Some(a) && row.source == Some(db.answers[a].source)
            && (row.revision == db.answers[a].revision <==> db.answers[a].revision.None?)
  {
    assert First(db.answers, ToRequest(me.request)) == Some(a);
  }

  /******* Runs from a fresh paper *******/

  lemma RunFront(w: World, st: Step, rest: seq<Step>)
    ensures Run(w, [st] + rest) == Run(Next(w, st), rest)
  {
    assert ([st] + rest)[1..] == rest;
  }

  lemma {:induction false} RunAppend(w: World, a: seq<Step>, b: seq<Step>)
    ensures Run(w, a + b) == Run(Run(w, a), b)
    decreases a
  {
    if a == [] {
      assert a + b == b;
    } else {
      assert a + b == [a[0]] + (a[1..] + b);
      RunFront(w, a[0], a[1..] + b);
      RunAppend(Next(w, a[0]), a[1..], b);
    }
  }

  const WRITTEN := Form(Written, [])

  lemma RunOfThree(w: World, a: Step, b: Step, c: Step)
    ensures Run(w, [a, b, c]) == Next(Next(Next(w, a), b), c)
  {
    RunFront(w, a, [b, c]);
    RunFront(Next(w, a), b, [c]);
    RunFront(Next(Next(w, a), b), c, []);
  }

  // Two workers begin to validate; one of them goes on and charges...
  const PAYING := [
    Step(0, OnPaper(Paper.BeginValidation)), Step(1, OnPaper(Paper.BeginValidation)), Step(0, OnPaper(Paper.Charge(false)))]

  // ...extracts a single question...
  const EXTRACTING := [
    Step(0, OnPaper(Paper.StartExtraction)), Step(0, OnPaper(Paper.ReadSource(1))), Step(0, Extract([WRITTEN]))]

  // ...and starts to answer it.
  const OPENING := PAYING + EXTRACTING + [Step(0, Start(1))]

  function PaidJob(wf: Paper.Workflow, epoch: nat, items: seq<Paper.Item>): Paper.Job {
    Paper.Job(wf, epoch, Paper.CommittedQuota, Paper.Charged, items)
  }

  const PAID := World(Db(PaidJob(Paper.Validated, 0, []), 0, [], [], [], map[], false),
                      map[0 := Extraction(Paper.Free), 1 := Extraction(Paper.Checking)])

  // The paper with its one item, while worker 1 is still about to charge it.
  function Opened(wf: Paper.Workflow, epoch: nat, item: Item): World {
    World(Db(PaidJob(wf, 1, [Paper.Item(1, 0, true)]), epoch, [item], [], [], map[], false), PAID.workers)
  }

  lemma PayingPays()
    ensures Run(FRESH, PAYING) == PAID
  {
    RunOfThree(FRESH, PAYING[0], PAYING[1], PAYING[2]);
  }

  lemma ExtractingExtracts()
    ensures Run(PAID, EXTRACTING) == Opened(Paper.ReadyToAnswer, 0, NewItem(WRITTEN))
  {
    assert ClearOf([WRITTEN]) == [true] && Paper.Records(1, [true]) == [Paper.Item(1, 0, true)];
    assert NewItems([WRITTEN]) == [NewItem(WRITTEN)];
    RunOfThree(PAID, EXTRACTING[0], EXTRACTING[1], EXTRACTING[2]);
  }

  lemma OpeningOpens()
    ensures Run(FRESH, OPENING) == Opened(Paper.InAnswering, 1, NewItem(WRITTEN))
  {
    PayingPays();
    ExtractingExtracts();
    RunAppend(FRESH, PAYING, EXTRACTING);
    RunAppend(FRESH, PAYING + EXTRACTING, [Step(0, Start(1))]);
    RunFront(Opened(Paper.ReadyToAnswer, 0, NewItem(WRITTEN)), Step(0, Start(1)), []);
  }

  lemma AfterOpening(steps: seq<Step>)
    ensures Run(FRESH, OPENING + steps) == Run(Opened(Paper.InAnswering, 1, NewItem(WRITTEN)), steps)
  {
    OpeningOpens();
    RunAppend(FRESH, OPENING, steps);
  }

  // One worker persists the answer of the item...
  function Asking(worker: nat, source: Source, revision: Option<nat>): seq<Step> {
    [Step(worker, Ask(0)), Step(worker, Link), Step(worker, Persist(source, "", revision))]
  }

  // ...and settles it.
  function Settling(worker: nat): seq<Step> {
    [Step(worker, Stamp), Step(worker, Record), Step(worker, Finish)]
  }

  const LINKED := NewItem(WRITTEN).(request := Some(0))

  function Asked0(source: Source, revision: Option<nat>): World {
    World(Db(PaidJob(Paper.InAnswering, 1, [Paper.Item(1, 0, true)]), 1, [LINKED],
             [Request(0, None)], [Answer(0, source, "", revision)], map[], false),
          PAID.workers[0 := Persisted(0, 0, 0, source, revision)])
  }

  lemma AskingAsks(source: Source, revision: Option<nat>)
    ensures Run(FRESH, OPENING + Asking(0, source, revision)) == Asked0(source, revision)
  {
    var w, steps := Opened(Paper.InAnswering, 1, NewItem(WRITTEN)), Asking(0, source, revision);
    AfterOpening(steps);
    RunOfThree(w, steps[0], steps[1], steps[2]);
  }

  // The tables once some worker has settled the item.
  function SettledDb(db: Db, source: Source, revision: Option<nat>): Db {
    db.(paper := db.paper.(workflow := Paper.Completed), requests := [Request(0, Some(source))],
        items := [LINKED.(status := Answered, answer := Some(0), source := Some(source), revision := revision)])
  }

  // Settling the item with a source that need not be the persisted one.
  lemma SettlingSettles(w: World, worker: nat, first: Source, firstRevision: Option<nat>, source: Source, revision: Option<nat>)
    requires w.db == Asked0(first, firstRevision).db && LocalOf(w, worker) == Persisted(0, 0, 0, source, revision)
    ensures Run(w, Settling(worker)).db == SettledDb(w.db, source, revision)
  {
    var me, done := Persisted(0, 0, 0, source, revision), SettledDb(w.db, source, revision);
    var stamped := Act(w.db, me, Stamp).0;
    assert stamped == w.db.(requests := [Request(0, Some(source))]);
    var recorded := Act(stamped, me, Record).0;
    assert recorded == stamped.(items := done.items);
    assert done.items[0].status == Answered;
    assert Act(recorded, Idle, Finish).0 == done;
    RunOfThree(w, Settling(worker)[0], Settling(worker)[1], Settling(worker)[2]);
  }

  /** From a fresh paper: the slow validation worker charges after the paper was answered and
      completed, and makes it a validated one again, its item answered all the same. */
  lemma LateChargeReopens()
    ensures var steps := OPENING + Asking(0, GeneralKnowledge, None) + Settling(0);
            var before, after := Run(FRESH, steps), Run(FRESH, steps + [Step(1, OnPaper(Paper.Charge(false)))]);
            && before.db.paper.workflow.Completed? && after.db.paper.workflow.Validated?
            && after.db.items == before.db.items && AnyWith(after.db.items, Answered)
  {
    var w, charge := Asked0(GeneralKnowledge, None), Step(1, OnPaper(Paper.Charge(false)));
    AskingAsks(GeneralKnowledge, None);
    RunAppend(FRESH, OPENING + Asking(0, GeneralKnowledge, None), Settling(0));
    SettlingSettles(w, 0, GeneralKnowledge, None, GeneralKnowledge, None);
    OthersKeep(w, Settling(0), 0, 1);
    var settled := Run(w, Settling(0));
    RunAppend(FRESH, OPENING + Asking(0, GeneralKnowledge, None) + Settling(0), [charge]);
    RunFront(settled, charge, []);
    assert settled.db.items[0].status == Answered;
  }

  lemma {:induction false} OthersKeep(w: World, steps: seq<Step>, worker: nat, other: nat)
    requires worker != other && forall i | 0 <= i < |steps| :: steps[i].worker == worker
    ensures LocalOf(Run(w, steps), other) == LocalOf(w, other)
    decreases steps
  {
    if steps != [] { OthersKeep(Next(w, steps[0]), steps[1..], worker, other); }
  }

  /** And a failure of the extraction's queue job, recorded while the paper is already being
      answered, leaves it failed and refunded with its item still open. */
  lemma RefundWhileAnswering()
    ensures var db := Run(FRESH, OPENING + [Step(2, OnPaper(Paper.FailAndRefund(false)))]).db;
            && db.paper.workflow.FailedJob? && db.paper.row.Refunded?
            && AnyOpen(db.items)
  {
    var w, refund := Opened(Paper.InAnswering, 1, NewItem(WRITTEN)), Step(2, OnPaper(Paper.FailAndRefund(false)));
    AfterOpening([refund]);
    RunFront(w, refund, []);
    assert Open(Next(w, refund).db.items[0]);
  }

  /** From a fresh paper: two workers answer the item from different sources; the one that persists
      second settles it, so that neither the item nor its request reports the answer's source. */
  lemma LateSourceDisagrees()
    ensures var db := Run(FRESH, OPENING + Asking(0, ApprovedBank, Some(7)) + Asking(2, GeneralKnowledge, None) + Settling(2)).db;
            && |db.items| == |db.answers| == |db.requests| == 1 && db.items[0].answer == Some(0)
            && db.answers[0].source == ApprovedBank && db.items[0].source == db.requests[0].source == Some(GeneralKnowledge)
  {
    var w, late := Asked0(ApprovedBank, Some(7)), Asking(2, GeneralKnowledge, None);
    AskingAsks(ApprovedBank, Some(7));
    RunAppend(FRESH, OPENING + Asking(0, ApprovedBank, Some(7)), late);
    LatePersist(w);
    RunAppend(FRESH, OPENING + Asking(0, ApprovedBank, Some(7)) + late, Settling(2));
    SettlingSettles(Run(w, late), 2, ApprovedBank, Some(7), GeneralKnowledge, None);
  }

  lemma LinkedAgain(db: Db, source: Source, revision: Option<nat>)
    requires db == Asked0(source, revision).db
    ensures Act(db, Idle, Ask(0)) == (db, Asked(0, 0)) && Act(db, Asked(0, 0), Link) == (db, Linked(0, 0))
  {
    assert db.items[0 := LINKED] == db.items;
  }

  lemma LatePersist(w: World)
    requires w == Asked0(ApprovedBank, Some(7))
    ensures var w' := Run(w, Asking(2, GeneralKnowledge, None));
            w'.db == w.db && LocalOf(w', 2) == Persisted(0, 0, 0, GeneralKnowledge, None)
  {
    var late := Asking(2, GeneralKnowledge, None);
    LinkedAgain(w.db, ApprovedBank, Some(7));
    RunOfThree(w, late[0], late[1], late[2]);
  }

  /** From a fresh paper: a worker persists an approved answer with its revision and crashes; its
      restart finds the answer, and the item ends without the revision that the answer has. */
  lemma RestartDropsTheRevision()
    ensures var restart := [Step(0, Crash), Step(0, Ask(0)), Step(0, Link)];
            var db := Run(FRESH, OPENING + Asking(0, ApprovedBank, Some(7)) + restart + [Step(0, CheckExisting), Step(0, Record)]).db;
            && |db.items| == |db.answers| == 1 && db.items[0].answer == Some(0)
            && db.answers[0].revision == Some(7) && db.items[0].revision.None?
  {
    var restart, rest := [Step(0, Crash), Step(0, Ask(0)), Step(0, Link)], [Step(0, CheckExisting), Step(0, Record)];
    var w := Asked0(ApprovedBank, Some(7));
    AskingAsks(ApprovedBank, Some(7));
    RunAppend(FRESH, OPENING + Asking(0, ApprovedBank, Some(7)), restart);
    RestartLinksAgain(w, restart);
    var w' := Run(w, restart);
    RunAppend(FRESH, OPENING + Asking(0, ApprovedBank, Some(7)) + restart, rest);
    Relinked(w');
  }

  lemma Relinked(w: World)
    requires w.db == Asked0(ApprovedBank, Some(7)).db && LocalOf(w, 0) == Linked(0, 0)
    ensures var db := Run(w, [Step(0, CheckExisting), Step(0, Record)]).db;
            && |db.items| == 1 && db.items[0].answer == Some(0) && db.items[0].revision.None?
            && db.answers == w.db.answers
  {
    var found := Next(w, Step(0, CheckExisting));
    assert found.db == w.db && LocalOf(found, 0) == Persisted(0, 0, 0, ApprovedBank, None);
    RunFront(w, Step(0, CheckExisting), [Step(0, Record)]);
    RunFront(found, Step(0, Record), []);
  }

  lemma RestartLinksAgain(w: World, restart: seq<Step>)
    requires w == Asked0(ApprovedBank, Some(7)) && restart == [Step(0, Crash), Step(0, Ask(0)), Step(0, Link)]
    ensures Run(w, restart).db == w.db && LocalOf(Run(w, restart), 0) == Linked(0, 0)
  {
    LinkedAgain(w.db, ApprovedBank, Some(7));
    RunOfThree(w, restart[0], restart[1], restart[2]);
  }
}
