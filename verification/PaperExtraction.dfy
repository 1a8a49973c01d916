/** Charging a paper and extracting its items: validation, the one batch charge, extraction
    epochs and refunds, with any number of workers on the same paper crashing anywhere.
    Every database transaction is one step. */
module PaperExtraction {

  datatype Workflow =
    | Queued | Validating | Validated | Invalid | LimitReached | Cancelled
    | Extracting | NeedsCorrection | ReadyToAnswer | InAnswering
    | Completed | PartiallyCompleted | FailedJob | TooManyQuestions

  // The job's own record of its quota, and the ledger row it stands for.
  datatype Quota = Unreserved | CommittedQuota | RefundedQuota
  datatype LedgerRow = NoRow | Charged | Refunded

  datatype Item = Item(epoch: nat, index: nat, clear: bool)

  datatype Job = Job(workflow: Workflow, epoch: nat, quota: Quota, row: LedgerRow, items: seq<Item>)

  // What a worker remembers between its transactions.
  datatype Local = Free | Checking | Reading(epoch: nat)

  datatype World = World(job: Job, workers: map<nat, Local>)

  datatype Action =
    | BeginValidation
    | RejectSource
    | Charge(limited: bool)
    | StartExtraction
    | ReadSource(epoch: nat)
    | WriteItems(clear: seq<bool>)
    | FailAndRefund(tooMany: bool)
    | Correct(index: nat)
    | StartAnswers
    | FinishAnswers(workflow: Workflow)
    | Crash

  datatype Step = Step(worker: nat, action: Action)

  /******* The transactions *******/

  predicate ValidationOver(wf: Workflow) {
    wf.Validated? || wf.Invalid? || wf.LimitReached? || wf.Cancelled?
  }

  predicate RefundOver(wf: Workflow) {
    wf.Invalid? || wf.LimitReached? || wf.Cancelled? || wf.Completed? || wf.FailedJob? || wf.TooManyQuestions?
  }

  predicate AnyUnclear(items: seq<Item>) {
    exists i | 0 <= i < |items| :: !items[i].clear
  }

  // Without a single question the paper gets one unclear item.
  function Records(epoch: nat, clear: seq<bool>): (r: seq<Item>)
    ensures |r| > 0
  {
    if clear == [] then [Item(epoch, 0, false)]
    else seq(|clear|, i requires 0 <= i < |clear| => Item(epoch, i, clear[i]))
  }

  // (job, item_index) is unique, so a second set of items raises and is rolled back.
  predicate Conflicts(items: seq<Item>, records: seq<Item>) {
    exists i, j | 0 <= i < |items| && 0 <= j < |records| :: items[i].index == records[j].index
  }

  function Failed(j: Job, wf: Workflow): Job {
    if j.quota.CommittedQuota? && j.row.Charged?
    then j.(workflow := wf, quota := RefundedQuota, row := Refunded)
    else j.(workflow := wf)
  }

  function Act(j: Job, me: Local, a: Action): (Job, Local) {
    match a
    case BeginValidation =>
      if ValidationOver(j.workflow) then (j, Free)
      else (if j.workflow.Queued? then j.(workflow := Validating) else j, Checking)
    case RejectSource =>
      if !me.Checking? then (j, me)
      else (if ValidationOver(j.workflow) then j else j.(workflow := Invalid), Free)
    case Charge(limited) =>
      if !me.Checking? then (j, me)
      else if ValidationOver(j.workflow) then (j, Free)
      else if limited then (j.(workflow := LimitReached), Free)
      // An existing ledger row is a duplicate: it is neither charged nor committed again.
      else (j.(workflow := Validated, quota := CommittedQuota, row := if j.row.NoRow? then Charged else j.row), Free)
    case StartExtraction =>
      if j.workflow.Validated? then (j.(workflow := Extracting, epoch := j.epoch + 1), me) else (j, me)
    case ReadSource(epoch) =>
      (j, if j.workflow.Extracting? && j.epoch == epoch then Reading(epoch) else Free)
    case WriteItems(clear) =>
      if !me.Reading? || !j.workflow.Extracting? || j.epoch != me.epoch then (j, Free)
      else
        var records := Records(me.epoch, clear);
        if Conflicts(j.items, records) then (j, Free)
        else (j.(items := j.items + records,
                 workflow := if AnyUnclear(records) then NeedsCorrection else ReadyToAnswer), Free)
    case FailAndRefund(tooMany) =>
      (if RefundOver(j.workflow) then j else Failed(j, if tooMany then TooManyQuestions else FailedJob), Free)
    case Correct(i) =>
      if !j.workflow.NeedsCorrection? || i >= |j.items| || j.items[i].clear then (j, me)
      else
        var items := j.items[i := j.items[i].(clear := true)];
        (j.(items := items, workflow := if AnyUnclear(items) then NeedsCorrection else ReadyToAnswer), me)
    case StartAnswers =>
      if j.workflow.ReadyToAnswer? && !AnyUnclear(j.items) then (j.(workflow := InAnswering), me) else (j, me)
    case FinishAnswers(wf) =>
      if j.workflow.InAnswering? && (wf.Completed? || wf.PartiallyCompleted? || wf.FailedJob?) then (j.(workflow := wf), me)
      else (j, me)
    case Crash => (j, Free)
  }

  function LocalOf(w: World, worker: nat): Local {
    if worker in w.workers then w.workers[worker] else Free
  }

  function Next(w: World, st: Step): World {
    var (job, me) := Act(w.job, LocalOf(w, st.worker), st.action);
    World(job, w.workers[st.worker := me])
  }

  function Run(w: World, steps: seq<Step>): World
    decreases steps
  {
    if steps == [] then w else Run(Next(w, steps[0]), steps[1..])
  }

  const FINALIZED := World(Job(Queued, 0, Unreserved, NoRow, []), map[])

  /******* Epochs *******/

  // The step inserts the items of epoch `epoch`.
  predicate Inserts(w: World, st: Step, epoch: nat) {
    && st.action.WriteItems? && LocalOf(w, st.worker) == Reading(epoch)
    && Next(w, st).job.items != w.job.items
  }

  function InsertsIn(w: World, steps: seq<Step>, epoch: nat): nat
    decreases steps
  {
    if steps == [] then 0
    else (if Inserts(w, steps[0], epoch) then 1 else 0) + InsertsIn(Next(w, steps[0]), steps[1..], epoch)
  }

  predicate EpochOpen(j: Job, epoch: nat) {
    j.epoch < epoch || (j.epoch == epoch && j.workflow.Extracting?)
  }

  /** A worker that holds an old epoch, or whose extraction has ended, changes nothing. */
  lemma StaleEpochChangesNothing(w: World, worker: nat, clear: seq<bool>)
    requires LocalOf(w, worker).Reading? ==> w.job.epoch != LocalOf(w, worker).epoch || !w.job.workflow.Extracting?
    ensures Next(w, Step(worker, WriteItems(clear))).job == w.job
  {
  }

  lemma StepEpochs(w: World, st: Step, epoch: nat)
    ensures w.job.epoch <= Next(w, st).job.epoch <= w.job.epoch + 1
    ensures EpochOpen(Next(w, st).job, epoch) ==> EpochOpen(w.job, epoch)
    ensures Inserts(w, st, epoch) ==> EpochOpen(w.job, epoch) && !EpochOpen(Next(w, st).job, epoch)
  {
  }

  /** Whatever workers race and crash, each epoch's items are inserted at most once, and only
      while the epoch is open; epochs only grow.  This rests on the status and epoch guards
      alone. */
  lemma {:induction false} EpochInsertsOnce(w: World, steps: seq<Step>, epoch: nat)
    ensures w.job.epoch <= Run(w, steps).job.epoch
    ensures InsertsIn(w, steps, epoch) <= (if EpochOpen(w.job, epoch) then 1 else 0)
    ensures InsertsIn(w, steps, epoch) == 1 ==> !EpochOpen(Run(w, steps).job, epoch)
    decreases steps
  {
    if steps != [] {
      StepEpochs(w, steps[0], epoch);
      EpochInsertsOnce(Next(w, steps[0]), steps[1..], epoch);
      if Inserts(w, steps[0], epoch) { ClosedStaysClosed(Next(w, steps[0]), steps[1..], epoch); }
    }
  }

  lemma {:induction false} ClosedStaysClosed(w: World, steps: seq<Step>, epoch: nat)
    requires !EpochOpen(w.job, epoch)
    ensures !EpochOpen(Run(w, steps).job, epoch)
    decreases steps
  {
    if steps != [] {
      StepEpochs(w, steps[0], epoch);
      ClosedStaysClosed(Next(w, steps[0]), steps[1..], epoch);
    }
  }

  /******* One set of items *******/

  // All rows come from one insert: one epoch, and each index once, from zero.
  predicate OneSet(items: seq<Item>) {
    && (forall i | 0 <= i < |items| :: items[i].index == i)
    && (forall i, k | 0 <= i < |items| && 0 <= k < |items| :: items[i].epoch == items[k].epoch)
  }

  lemma SecondSetConflicts(items: seq<Item>, epoch: nat, clear: seq<bool>)
    requires OneSet(items) && items != []
    ensures Conflicts(items, Records(epoch, clear))
  {
    assert items[0].index == Records(epoch, clear)[0].index;
  }

  lemma RecordsAreOneSet(epoch: nat, clear: seq<bool>)
    ensures OneSet(Records(epoch, clear))
  {
  }

  lemma StepKeepsOneSet(w: World, st: Step)
    requires OneSet(w.job.items)
    ensures OneSet(Next(w, st).job.items)
    ensures w.job.items != [] ==> |Next(w, st).job.items| == |w.job.items|
  {
    if st.action.WriteItems? {
      var me := LocalOf(w, st.worker);
      if me.Reading? {
        RecordsAreOneSet(me.epoch, st.action.clear);
        if w.job.items == [] {
          assert [] + Records(me.epoch, st.action.clear) == Records(me.epoch, st.action.clear);
        } else {
          SecondSetConflicts(w.job.items, me.epoch, st.action.clear);
        }
      }
    }
  }

  /** Across all epochs a paper receives one set of items: once there are any, no step of any
      run adds one, whatever epoch it belongs to. */
  lemma {:induction false} ItemsArriveOnce(w: World, steps: seq<Step>)
    requires OneSet(w.job.items)
    ensures OneSet(Run(w, steps).job.items)
    ensures w.job.items != [] ==> |Run(w, steps).job.items| == |w.job.items|
    decreases steps
  {
    if steps != [] {
      StepKeepsOneSet(w, steps[0]);
      ItemsArriveOnce(Next(w, steps[0]), steps[1..]);
    }
  }

  /******* The one charge *******/

  predicate QuotaAgrees(j: Job) {
    match j.quota
    case Unreserved => j.row.NoRow?
    case CommittedQuota => j.row.Charged?
    case RefundedQuota => j.row.Refunded?
  }

  // A validation that charges after the refund, whenever it began: neither its first transaction
  // nor its last one stops at a failed paper.
  predicate Recharges(w: World, st: Step) {
    && st.action.Charge? && !st.action.limited && LocalOf(w, st.worker).Checking?
    && !ValidationOver(w.job.workflow) && w.job.quota.RefundedQuota?
  }

  /** The job's quota status and its ledger row say the same after every step, except exactly
      after a late charge of a paper that was refunded meanwhile: the job is then validated and
      committed again, while the ledger keeps the refund. */
  lemma StepKeepsQuotaExactly(w: World, st: Step)
    requires QuotaAgrees(w.job)
    ensures QuotaAgrees(Next(w, st).job) <==> !Recharges(w, st)
    ensures Recharges(w, st) ==> Next(w, st).job.workflow.Validated? && Next(w, st).job.row.Refunded?
  {
  }

  predicate AlwaysAgrees(w: World, steps: seq<Step>)
    decreases steps
  {
    QuotaAgrees(w.job) && (steps != [] ==> AlwaysAgrees(Next(w, steps[0]), steps[1..]))
  }

  predicate EverRecharges(w: World, steps: seq<Step>)
    decreases steps
  {
    steps != [] && (Recharges(w, steps[0]) || EverRecharges(Next(w, steps[0]), steps[1..]))
  }

  lemma {:induction false} RunKeepsQuotaExactly(w: World, steps: seq<Step>)
    requires QuotaAgrees(w.job)
    ensures AlwaysAgrees(w, steps) <==> !EverRecharges(w, steps)
    decreases steps
  {
    if steps != [] {
      StepKeepsQuotaExactly(w, steps[0]);
      if QuotaAgrees(Next(w, steps[0]).job) { RunKeepsQuotaExactly(Next(w, steps[0]), steps[1..]); }
    }
  }

  function Moves(w: World, steps: seq<Step>, from: LedgerRow, to: LedgerRow): nat
    decreases steps
  {
    if steps == [] then 0
    else (if w.job.row == from && Next(w, steps[0]).job.row == to then 1 else 0)
         + Moves(Next(w, steps[0]), steps[1..], from, to)
  }

  /** In every run the ledger row is charged at most once and refunded at most once, it is never
      refunded unless it was charged, and its final state tells which of the two happened. */
  lemma {:induction false} ChargedOnceRefundedOnce(w: World, steps: seq<Step>)
    ensures var row := Run(w, steps).job.row;
            && Moves(w, steps, NoRow, Charged) == (if w.job.row.NoRow? && !row.NoRow? then 1 else 0)
            && Moves(w, steps, Charged, Refunded) == (if !w.job.row.Refunded? && row.Refunded? then 1 else 0)
            && Moves(w, steps, NoRow, Refunded) == 0
    ensures w.job.row.Refunded? ==> Run(w, steps).job.row.Refunded?
    ensures w.job.row.Charged? ==> !Run(w, steps).job.row.NoRow?
    decreases steps
  {
    if steps != [] { ChargedOnceRefundedOnce(Next(w, steps[0]), steps[1..]); }
  }

  lemma RunFront(w: World, st: Step, rest: seq<Step>)
    ensures Run(w, [st] + rest) == Run(Next(w, st), rest)
  {
    assert ([st] + rest)[1..] == rest;
  }

  /** Two validation workers suffice: the paper ends validated and committed, ready to be
      extracted again, although its charge was refunded. */
  lemma LateValidationRecharges()
    ensures var w := Run(FINALIZED, [Step(0, BeginValidation), Step(1, BeginValidation), Step(0, Charge(false)),
                                     Step(0, StartExtraction), Step(2, FailAndRefund(false)), Step(1, Charge(false))]);
            w.job.workflow.Validated? && w.job.quota.CommittedQuota? && w.job.row.Refunded?
  {
    var s0, s1, s2 := Step(0, BeginValidation), Step(1, BeginValidation), Step(0, Charge(false));
    var s3, s4, s5 := Step(0, StartExtraction), Step(2, FailAndRefund(false)), Step(1, Charge(false));
    RunFront(FINALIZED, s0, [s1, s2, s3, s4, s5]);
    var w1 := Next(FINALIZED, s0);
    RunFront(w1, s1, [s2, s3, s4, s5]);
    var w2 := Next(w1, s1);
    RunFront(w2, s2, [s3, s4, s5]);
    var w3 := Next(w2, s2);
    RunFront(w3, s3, [s4, s5]);
    var w4 := Next(w3, s3);
    RunFront(w4, s4, [s5]);
    var w5 := Next(w4, s4);
    RunFront(w5, s5, []);
    assert LocalOf(w2, 1) == LocalOf(w5, 1) == Checking;
  }

  /** One worker suffices too, when the validation job is delivered again after the refund. */
  lemma RedeliveredValidationRecharges()
    ensures var w := Run(FINALIZED, [Step(0, BeginValidation), Step(0, Charge(false)), Step(0, StartExtraction),
                                     Step(0, FailAndRefund(false)), Step(0, BeginValidation), Step(0, Charge(false))]);
            w.job.workflow.Validated? && w.job.quota.CommittedQuota? && w.job.row.Refunded?
  {
    var s0, s1, s2 := Step(0, BeginValidation), Step(0, Charge(false)), Step(0, StartExtraction);
    var s3 := Step(0, FailAndRefund(false));
    var w1 := Next(FINALIZED, s0);
    var w2 := Next(w1, s1);
    var w3 := Next(w2, s2);
    var w4 := Next(w3, s3);
    var w5 := Next(w4, s0);
    RunFront(FINALIZED, s0, [s1, s2, s3, s0, s1]);
    RunFront(w1, s1, [s2, s3, s0, s1]);
    RunFront(w2, s2, [s3, s0, s1]);
    RunFront(w3, s3, [s0, s1]);
    RunFront(w4, s0, [s1]);
    RunFront(w5, s1, []);
    assert w4.job.workflow.FailedJob? && LocalOf(w5, 0) == Checking;
  }

  /******* The services *******/

  class Paper {
    var workflow: Workflow
    var epoch: nat
    var quota: Quota
    var row: LedgerRow
    var items: seq<Item>

    ghost function State(): Job
      reads this
    {
      Job(workflow, epoch, quota, row, items)
    }

    constructor ()
      ensures State() == FINALIZED.job && QuotaAgrees(State()) && OneSet(State().items)
    {
      workflow, epoch, quota, row, items := Queued, 0, Unreserved, NoRow, [];
    }

    /** The first transaction of validate_and_charge. */
    method StartValidation() returns (goesOn: bool)
      modifies this
      ensures (State(), if goesOn then Checking else Free) == Act(old(State()), Free, BeginValidation)
    {
      if ValidationOver(workflow) {
        return false;
      }
      if workflow == Queued { workflow := Validating; }
      goesOn := true;
    }

    /** Its last transaction; `limited` is the reservation's verdict. */
    method ValidateAndCharge(sourceValid: bool, limited: bool) returns (result: Workflow)
      modifies this
      ensures (State(), Free) == Act(old(State()), Checking, if sourceValid then Charge(limited) else RejectSource)
      ensures sourceValid ==> result == workflow
    {
      if !sourceValid {
        if !ValidationOver(workflow) { workflow := Invalid; }
        return Invalid;
      }
      if ValidationOver(workflow) {
        return workflow;
      }
      if limited {
        workflow := LimitReached;
        return LimitReached;
      }
      if row == NoRow { row := Charged; }
      workflow, quota := Validated, CommittedQuota;
      result := Validated;
    }

    method StartInitialExtraction() returns (started: bool)
      modifies this
      ensures (State(), Free) == Act(old(State()), Free, StartExtraction)
      ensures started <==> old(workflow).Validated?
      ensures started ==> epoch == old(epoch) + 1
    {
      if workflow != Validated {
        return false;
      }
      workflow, epoch := Extracting, epoch + 1;
      started := true;
    }

    /** The writing transaction of extract, after the source was read under `seen`. */
    method WriteExtractedItems(seen: nat, clear: seq<bool>) returns (status: Workflow)
      modifies this
      ensures (State(), Free) == Act(old(State()), Reading(seen), WriteItems(clear))
      ensures State() == old(State()) || (old(workflow) == Extracting && old(epoch) == seen)
    {
      if workflow != Extracting || epoch != seen {
        return workflow;
      }
      var records := BuildRecords(seen, clear);
      var inserted := items;
      var k := 0;
      while k < |records|
        invariant k <= |records| && inserted == items + records[..k]
        invariant State() == old(State())
        invariant forall j | 0 <= j < k :: forall i | 0 <= i < |items| :: items[i].index != records[j].index
      {
        if i :| 0 <= i < |items| && items[i].index == records[k].index {
          // The unique index rejects the row, and the transaction with it.
          assert Conflicts(items, records);
          return workflow;
        }
        inserted := inserted + [records[k]];
        k := k + 1;
      }
      assert records[..k] == records;
      items := inserted;
      workflow := if AnyUnclear(records) then NeedsCorrection else ReadyToAnswer;
      status := workflow;
    }

    method BuildRecords(seen: nat, clear: seq<bool>) returns (records: seq<Item>)
      ensures records == Records(seen, clear)
    {
      records := [];
      var k := 0;
      while k < |clear|
        invariant k <= |clear| == |clear| && records == seq(k, i requires 0 <= i < k => Item(seen, i, clear[i]))
      {
        records := records + [Item(seen, k, clear[k])];
        k := k + 1;
      }
      if records == [] { records := [Item(seen, 0, false)]; }
    }

    method RefundFailure(tooMany: bool)
      modifies this
      ensures (State(), Free) == Act(old(State()), Free, FailAndRefund(tooMany))
    {
      if RefundOver(workflow) {
        return;
      }
      if quota == CommittedQuota && row == Charged {
        row, quota := Refunded, RefundedQuota;
      }
      workflow := if tooMany then TooManyQuestions else FailedJob;
    }

    method ApplyCorrection(i: nat) returns (done: bool)
      modifies this
      ensures (State(), Free) == Act(old(State()), Free, Correct(i))
      ensures done <==> State() != old(State())
    {
      if workflow != NeedsCorrection || i >= |items| || items[i].clear {
        return false;
      }
      items := items[i := items[i].(clear := true)];
      if !AnyUnclear(items) { workflow := ReadyToAnswer; }
      assert items[i] != old(items)[i];
      done := true;
    }
  }
}
