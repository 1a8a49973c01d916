/** The tables behind answering one paper: its job, its items, the request and answer rows.
    Workers act on them statement by statement, and may crash or be duplicated anywhere; the
    workers that validate, charge, extract and refund the same paper act among them. */
module AnswerTables {
  import opened Wrappers
  import opened Sequences
  import Decimal
  import Mcqs = McqResults
  import Paper = PaperExtraction

  datatype Mode = Mcq | Written | NotClear
  datatype ItemStatus = NeedsCorrection | Ready | Answering | Answered | Failed
  datatype Source = ApprovedBank | SyllabusGrounded | GeneralKnowledge

  // What extraction, or a correction, makes of one question.
  datatype Form = Form(mode: Mode, options: seq<Mcqs.Choice>)

  datatype Item = Item(form: Form, status: ItemStatus, request: Option<nat>, answer: Option<nat>,
                       source: Option<Source>, revision: Option<nat>, error: Option<string>)

  // A request's client id is derived from its job and item, so it stands for the item.
  datatype Request = Request(item: nat, source: Option<Source>)
  datatype Answer = Answer(request: nat, source: Source, text: string, revision: Option<nat>)

  // Rows are only ever appended to the request and answer tables; a row's id is its place.  The
  // last component is no column: it remembers whether a status was set past the answering.
  datatype Db = Db(paper: Paper.Job, epoch: nat, items: seq<Item>, requests: seq<Request>, answers: seq<Answer>,
                   batches: map<nat, seq<Mcqs.McqResult>>, overridden: bool)

  // What a worker holds between its statements.
  datatype Local =
    | Idle
    | Extraction(held: Paper.Local)
    | Asked(item: nat, request: nat)
    | Linked(item: nat, request: nat)
    | Persisted(item: nat, request: nat, answer: nat, source: Source, revision: Option<nat>)

  datatype Action =
    | OnPaper(step: Paper.Action)
    | Extract(forms: seq<Form>)
    | CorrectItem(index: nat, form: Form)
    | Start(epoch: nat)
    | Ask(item: nat)
    | Link
    | CheckExisting
    | MarkAnswering
    | Persist(source: Source, text: string, revision: Option<nat>)
    | Stamp
    | Record
    | Fail(item: nat, code: string)
    | SaveBatch(epoch: nat, results: seq<Mcqs.McqResult>)
    | ApproveAnswer(answer: nat, approved: nat)
    | Finish
    | FailRest
    | Crash

  /******* Rows *******/

  predicate Open(i: Item) {
    i.status.Ready? || i.status.Answering?
  }

  function OfItem(item: nat): Request -> bool {
    (r: Request) => r.item == item
  }

  function ToRequest(request: nat): Answer -> bool {
    (a: Answer) => a.request == request
  }

  function FailedItem(i: Item, code: string): Item {
    if Open(i) then i.(status := Failed, error := Some(code)) else i
  }

  function WithoutOpen(items: seq<Item>): (r: seq<Item>)
    ensures |r| == |items|
  {
    seq(|items|, i requires 0 <= i < |items| => FailedItem(items[i], "MULTIPLE_ASK_ANSWER_FAILED"))
  }

  predicate AnyOpen(items: seq<Item>) {
    exists i | 0 <= i < |items| :: Open(items[i])
  }

  predicate AnyWith(items: seq<Item>, status: ItemStatus) {
    exists i | 0 <= i < |items| :: items[i].status == status
  }

  // The workflow finish_answers decides on once nothing is open.
  function Classified(items: seq<Item>): Paper.Workflow {
    if !AnyWith(items, Answered) then Paper.FailedJob
    else if AnyWith(items, Failed) then Paper.PartiallyCompleted
    else Paper.Completed
  }

  function Finished(db: Db): Db {
    if AnyOpen(db.items) || !db.paper.workflow.InAnswering? then db
    else db.(paper := db.paper.(workflow := Classified(db.items)))
  }

  function IdOf(i: nat): string {
    Decimal.Digits(i)
  }

  // The paper's MCQs as the provider is asked about them.
  function PaperMcqs(items: seq<Item>): seq<Mcqs.McqItem> {
    if items == [] then []
    else
      var front, last := PaperMcqs(items[..|items| - 1]), items[|items| - 1];
      if last.form.mode.Mcq? then front + [Mcqs.McqItem(IdOf(|items| - 1), last.form.options)] else front
  }

  function NewItem(form: Form): Item {
    Item(form, if form.mode.NotClear? then NeedsCorrection else Ready, None, None, None, None, None)
  }

  // A paper without a question gets one unclear item.
  function NewItems(forms: seq<Form>): (r: seq<Item>)
    ensures r != []
  {
    if forms == [] then [NewItem(Form(NotClear, []))]
    else seq(|forms|, i requires 0 <= i < |forms| => NewItem(forms[i]))
  }

  function ClearOf(forms: seq<Form>): seq<bool> {
    seq(|forms|, i requires 0 <= i < |forms| => !forms[i].mode.NotClear?)
  }

  /******* Writers of the same job row *******/

  function PaperLocal(me: Local): Paper.Local {
    if me.Extraction? then me.held else Paper.Free
  }

  predicate Ended(wf: Paper.Workflow) {
    wf.Completed? || wf.PartiallyCompleted? || wf.FailedJob?
  }

  // The steps of PaperExtraction that touch no item.
  predicate JobStep(a: Paper.Action) {
    !a.WriteItems? && !a.Correct? && !a.StartAnswers? && !a.FinishAnswers?
  }

  // Which of them set a status that the answering does not bear out.  A late charge or rejection
  // stops only at validated, invalid, limit_reached and cancelled; a refund also stops at
  // completed, failed and too_many_questions.
  predicate Overrides(db: Db, me: Local, a: Paper.Action) {
    var wf := db.paper.workflow;
    match a
    case Charge(_) => PaperLocal(me).Checking? && (wf.InAnswering? || Ended(wf))
    case RejectSource => PaperLocal(me).Checking? && (wf.InAnswering? || Ended(wf))
    case FailAndRefund(tooMany) =>
      !Paper.RefundOver(wf) && if tooMany then wf.InAnswering? || wf.PartiallyCompleted?
                               else AnyOpen(db.items) || AnyWith(db.items, Answered)
    case _ => false
  }

  /******* The statements *******/

  function Act(db: Db, me: Local, a: Action): (Db, Local) {
    match a
    case OnPaper(step) =>
      if !JobStep(step) then (db, me)
      else
        var (job, held) := Paper.Act(db.paper, PaperLocal(me), step);
        (db.(paper := job, overridden := db.overridden || Overrides(db, me, step)), Extraction(held))
    case Extract(forms) =>
      var (job, held) := Paper.Act(db.paper, PaperLocal(me), Paper.WriteItems(ClearOf(forms)));
      (if job == db.paper then db else db.(paper := job, items := db.items + NewItems(forms)), Extraction(held))
    case CorrectItem(i, form) =>
      var job := Paper.Act(db.paper, PaperLocal(me), Paper.Correct(i)).0;
      if form.mode.NotClear? || job == db.paper || i >= |db.items| then (db, me)
      else (db.(paper := job, items := db.items[i := db.items[i].(form := form, status := Ready)]), me)
    case Start(epoch) =>
      if db.paper.workflow.ReadyToAnswer? && db.epoch + 1 == epoch && !AnyWith(db.items, NeedsCorrection)
      then (db.(paper := db.paper.(workflow := Paper.InAnswering), epoch := epoch), me)
      else (db, me)
    case Ask(item) =>
      if item >= |db.items| then (db, me)
      else
        var found := First(db.requests, OfItem(item));
        if found.Some? then (db, Asked(item, found.value))
        else (db.(requests := db.requests + [Request(item, None)]), Asked(item, |db.requests|))
    case Link =>
      if !me.Asked? || me.item >= |db.items| then (db, me)
      else
        var row := db.items[me.item];
        if row.request.Some? && row.request.value != me.request then (db, Idle)
        else (db.(items := db.items[me.item := row.(request := Some(me.request))]), Linked(me.item, me.request))
    case CheckExisting =>
      if !me.Linked? then (db, me)
      else
        var found := First(db.answers, ToRequest(me.request));
        if found.None? then (db, me)
        else (db, Persisted(me.item, me.request, found.value, db.answers[found.value].source, None))
    case MarkAnswering =>
      if !me.Linked? || me.item >= |db.items| || !Open(db.items[me.item]) then (db, me)
      else (db.(items := db.items[me.item := db.items[me.item].(status := Answering)]), me)
    case Persist(source, text, revision) =>
      if !me.Linked? then (db, me)
      else
        var found := First(db.answers, ToRequest(me.request));
        if found.Some? then (db, Persisted(me.item, me.request, found.value, source, revision))
        else (db.(answers := db.answers + [Answer(me.request, source, text, revision)]),
              Persisted(me.item, me.request, |db.answers|, source, revision))
    case Stamp =>
      if !me.Persisted? || me.request >= |db.requests| then (db, me)
      else (db.(requests := db.requests[me.request := db.requests[me.request].(source := Some(me.source))]), me)
    case Record =>
      if !me.Persisted? || me.item >= |db.items| then (db, me)
      else (db.(items := db.items[me.item := RecordedItem(db.items[me.item], me)]), Idle)
    case Fail(item, code) =>
      if item >= |db.items| then (db, me)
      else (db.(items := db.items[item := FailedItem(db.items[item], code)]), Idle)
    case SaveBatch(epoch, results) =>
      // Only results that the validation accepted for the paper's MCQs reach this insert.
      if epoch in db.batches || db.items == [] || AnyWith(db.items, NeedsCorrection) || !Mcqs.Matches(results, PaperMcqs(db.items))
      then (db, me)
      else (db.(batches := db.batches[epoch := results]), me)
    case ApproveAnswer(answer, approved) =>
      if answer >= |db.answers| || db.answers[answer].revision.Some? then (db, me)
      else (db.(answers := db.answers[answer := db.answers[answer].(revision := Some(approved))]), me)
    case Finish => (Finished(db), me)
    case FailRest =>
      if db.paper.workflow.InAnswering? then (Finished(db.(items := WithoutOpen(db.items))), me) else (db, me)
    case Crash => (db, Idle)
  }

  function RecordedItem(row: Item, me: Local): Item
    requires me.Persisted?
  {
    if Open(row)
    then row.(status := Answered, answer := Some(me.answer), source := Some(me.source), revision := me.revision, error := None)
    else row
  }

  datatype World = World(db: Db, workers: map<nat, Local>)
  datatype Step = Step(worker: nat, action: Action)

  function LocalOf(w: World, worker: nat): Local {
    if worker in w.workers then w.workers[worker] else Idle
  }

  function Next(w: World, st: Step): World {
    var (db, me) := Act(w.db, LocalOf(w, st.worker), st.action);
    World(db, w.workers[st.worker := me])
  }

  function Run(w: World, steps: seq<Step>): World
    decreases steps
  {
    if steps == [] then w else Run(Next(w, steps[0]), steps[1..])
  }

  // A finalized upload, before anything was validated.
  const FRESH := World(Db(Paper.FINALIZED.job, 0, [], [], [], map[], false), map[])

  /******* What every step keeps *******/

  predicate OneRequestPerItem(db: Db) {
    forall r, q | 0 <= r < |db.requests| && 0 <= q < |db.requests| && db.requests[r].item == db.requests[q].item :: r == q
  }

  predicate OneAnswerPerRequest(db: Db) {
    forall a, b | 0 <= a < |db.answers| && 0 <= b < |db.answers| && db.answers[a].request == db.answers[b].request :: a == b
  }

  predicate ItemSound(db: Db, i: nat)
    requires i < |db.items|
  {
    var row := db.items[i];
    && (row.request.Some? ==> row.request.value < |db.requests| && db.requests[row.request.value].item == i)
    && (row.answer.Some? <==> row.status == Answered)
    && (row.answer.Some? ==> row.answer.value < |db.answers| && row.request == Some(db.answers[row.answer.value].request))
    && (row.form.mode.NotClear? <==> row.status.NeedsCorrection?)
  }

  predicate ItemsSound(db: Db) {
    forall i | 0 <= i < |db.items| :: ItemSound(db, i)
  }

  // The items are those the extraction wrote, and an unclear one still needs its correction.
  predicate Aligned(items: seq<Item>, rows: seq<Paper.Item>) {
    && |items| == |rows| && Paper.OneSet(rows)
    && forall i | 0 <= i < |rows| :: rows[i].clear <==> !items[i].status.NeedsCorrection?
  }

  predicate Extracted(wf: Paper.Workflow) {
    wf.NeedsCorrection? || wf.ReadyToAnswer? || wf.InAnswering? || wf.Completed? || wf.PartiallyCompleted?
  }

  predicate BatchesSound(db: Db) {
    && (db.batches != map[] ==> db.items != [] && !AnyWith(db.items, NeedsCorrection))
    && (forall e | e in db.batches :: Mcqs.Matches(db.batches[e], PaperMcqs(db.items)))
  }

  // An ended status says exactly what became of the items.
  predicate Truthful(db: Db) {
    Ended(db.paper.workflow) ==> !AnyOpen(db.items) && db.paper.workflow == Classified(db.items)
  }

  predicate DbSound(db: Db) {
    && OneRequestPerItem(db) && OneAnswerPerRequest(db) && ItemsSound(db)
    && Aligned(db.items, db.paper.items) && BatchesSound(db)
    && (Extracted(db.paper.workflow) ==> db.items != [])
    && (db.paper.workflow.InAnswering? ==> !AnyWith(db.items, NeedsCorrection))
    && (!db.overridden ==> Truthful(db))
  }

  predicate OfAnItem(me: Local) {
    me.Asked? || me.Linked? || me.Persisted?
  }

  predicate LocalSound(db: Db, me: Local) {
    && (OfAnItem(me) ==> me.item < |db.items| && me.request < |db.requests| && db.requests[me.request].item == me.item)
    && (me.Linked? || me.Persisted? ==> db.items[me.item].request == Some(me.request))
    && (me.Persisted? ==> me.answer < |db.answers| && db.answers[me.answer].request == me.request)
  }

  predicate Sound(w: World) {
    DbSound(w.db) && forall c | c in w.workers :: LocalSound(w.db, w.workers[c])
  }

  // How the tables may move on: nothing persisted or settled is ever taken back.
  predicate ItemEvolves(i: Item, j: Item) {
    && (i.request.Some? ==> j.request == i.request)
    && (!i.status.NeedsCorrection? ==>
          && j.form == i.form && !j.status.NeedsCorrection?
          && (!Open(i) ==> j == i.(request := j.request))
          && (Open(j) ==> Open(i)))
  }

  predicate ItemsEvolve(a: seq<Item>, b: seq<Item>) {
    && |a| <= |b| && (a != [] ==> |a| == |b|)
    && forall i | 0 <= i < |a| :: ItemEvolves(a[i], b[i])
  }

  predicate RequestsEvolve(a: seq<Request>, b: seq<Request>) {
    |a| <= |b| && forall r | 0 <= r < |a| :: b[r].item == a[r].item
  }

  // An approval may add a revision to an answer; its content stays.
  predicate AnswersEvolve(a: seq<Answer>, b: seq<Answer>) {
    |a| <= |b| && forall i | 0 <= i < |a| :: b[i] == a[i].(revision := b[i].revision)
  }

  // Answering only ends, and an ended paper stays as it is.
  predicate StatusKept(a: Paper.Workflow, b: Paper.Workflow) {
    && (a.InAnswering? ==> b.InAnswering? || Ended(b))
    && (Ended(a) ==> b == a)
  }

  predicate Evolves(db: Db, db': Db) {
    && ItemsEvolve(db.items, db'.items)
    && RequestsEvolve(db.requests, db'.requests)
    && AnswersEvolve(db.answers, db'.answers)
    && (forall e | e in db.batches :: e in db'.batches && db'.batches[e] == db.batches[e])
    && (db.overridden ==> db'.overridden)
    && (!db'.overridden ==> StatusKept(db.paper.workflow, db'.paper.workflow))
    && (!db'.overridden && db.paper.workflow.InAnswering? && db'.paper.workflow.InAnswering? ==> db'.epoch == db.epoch)
  }
}
