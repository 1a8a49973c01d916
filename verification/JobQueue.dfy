/** The durable job queue: leases, heartbeats, retries, stale recovery and chained
    successors over one table.  Every statement is a guarded update of one row, and
    every actor (workers, recovery loops, enqueuers) may interleave between statements. */
module JobQueue {
  import opened Wrappers

  type Worker = w: string | w != "" witness "worker"

  datatype Status = Queued | Leased | Running | RetryWait | Succeeded | Failed

  datatype Job = Job(
    jobType: string,
    key: Option<string>,
    status: Status,
    stage: string,
    lockedBy: Option<Worker>,
    attempts: nat,
    maxAttempts: nat,
    createdAt: int,
    heartbeatAt: int,
    retryAt: int,
    errorCode: string,
    errorMessage: string)

  datatype NewJob = NewJob(jobType: string, key: Option<string>, maxAttempts: nat)

  type Table = map<nat, Job>

  datatype Step =
    | Create(newId: nat, job: NewJob, now: int)
    | Lease(id: nat, worker: Worker, types: set<string>, now: int)
    | Heartbeat(id: nat, worker: Worker, now: int)
    | Progress(id: nat, worker: Worker, stage: string, now: int)
    | Complete(id: nat, worker: Worker)
    | CompleteAndEnqueue(id: nat, worker: Worker, successor: NewJob, newId: nat, now: int)
    | Fail(id: nat, worker: Worker, code: string, message: string, delay: Option<nat>, now: int)
    | Recover(threshold: int, now: int)

  /******* The statements *******/

  predicate InHand(j: Job) {
    j.status.Leased? || j.status.Running?
  }

  predicate Owns(q: Table, id: nat, worker: Worker) {
    id in q && q[id].lockedBy == Some(worker) && InHand(q[id])
  }

  predicate KeyTaken(q: Table, key: Option<string>) {
    key.Some? && exists id | id in q :: q[id].key == key
  }

  function QueuedRow(job: NewJob, now: int): Job {
    Job(job.jobType, job.key, Queued, "pending", None, 0, job.maxAttempts, now, now, now, "", "")
  }

  // An existing key only touches updated_at; max_attempts > 0 is a column check.
  function Enqueue(q: Table, newId: nat, job: NewJob, now: int): Table {
    if newId in q || KeyTaken(q, job.key) || job.maxAttempts == 0 then q
    else q[newId := QueuedRow(job, now)]
  }

  predicate Eligible(q: Table, id: nat, types: set<string>, now: int) {
    && id in q && q[id].jobType in types
    && (q[id].status.Queued? || (q[id].status.RetryWait? && q[id].retryAt <= now))
  }

  function LeasedRow(j: Job, worker: Worker, now: int): Job {
    j.(status := Leased, stage := "leased", lockedBy := Some(worker), heartbeatAt := now, attempts := j.attempts + 1)
  }

  predicate Stale(j: Job, threshold: int, now: int) {
    InHand(j) && j.heartbeatAt < now - threshold
  }

  function RecoveredRow(j: Job, threshold: int, now: int): Job {
    if !Stale(j, threshold, now) then j
    else if j.attempts < j.maxAttempts then RetriedRow(j, now)
    else ExpiredRow(j)
  }

  function RetriedRow(j: Job, now: int): Job {
    j.(status := RetryWait, lockedBy := None, retryAt := now + 5)
  }

  function ExpiredRow(j: Job): Job {
    j.(status := Failed, lockedBy := None, errorCode := "STALE_LEASE_EXHAUSTED",
       errorMessage := "Job heartbeat expired and maximum attempts were reached")
  }

  function Recovered(q: Table, threshold: int, now: int): Table {
    map id | id in q :: RecoveredRow(q[id], threshold, now)
  }

  // With a lock owner the update is guarded by that owner; without one it has no guard at all.
  predicate Writes(seen: Job, row: Job, worker: Worker) {
    seen.lockedBy.None? || (seen.lockedBy == Some(worker) && row.lockedBy == Some(worker) && InHand(row))
  }

  predicate Retries(seen: Job, delay: Option<nat>) {
    delay.Some? && delay.value > 0 && seen.attempts < seen.maxAttempts
  }

  // fail_job decides on the row it read and then writes to the row it finds.  Without a lock
  // owner its positional arguments shift: the worker id is stored as the error code.
  function FailWrite(seen: Job, row: Job, worker: Worker, code: string, message: string, delay: Option<nat>, now: int)
    : (Job, bool)
  {
    var guarded := seen.lockedBy.Some?;
    if !Writes(seen, row, worker) then (row, false)
    else
      var failed := row.(errorCode := if guarded then code else worker,
                         errorMessage := if guarded then message else code);
      if Retries(seen, delay) then (failed.(status := RetryWait, lockedBy := None, retryAt := now + delay.value), true)
      else (failed.(status := Failed), true)
  }

  function Next(q: Table, st: Step): (Table, bool) {
    match st
    case Create(newId, job, now) => (Enqueue(q, newId, job, now), true)
    case Lease(id, worker, types, now) =>
      if Eligible(q, id, types, now) then (q[id := LeasedRow(q[id], worker, now)], true) else (q, false)
    case Heartbeat(id, worker, now) =>
      if Owns(q, id, worker) then (q[id := q[id].(heartbeatAt := now)], true) else (q, false)
    case Progress(id, worker, stage, now) =>
      if Owns(q, id, worker) then (q[id := q[id].(status := Running, stage := stage, heartbeatAt := now)], true)
      else (q, false)
    case Complete(id, worker) =>
      if Owns(q, id, worker) then (q[id := q[id].(status := Succeeded, stage := "completed")], true) else (q, false)
    case CompleteAndEnqueue(id, worker, successor, newId, now) =>
      if !Owns(q, id, worker) || successor.maxAttempts == 0 then (q, false)
      else (Enqueue(q[id := q[id].(status := Succeeded, stage := "completed")], newId, successor, now), true)
    case Fail(id, worker, code, message, delay, now) =>
      if id !in q then (q, false)
      else
        var (row, done) := FailWrite(q[id], q[id], worker, code, message, delay, now);
        (q[id := row], done)
    case Recover(threshold, now) =>
      (Recovered(q, threshold, now), true)
  }

  function Run(q: Table, steps: seq<Step>): Table
    decreases steps
  {
    if steps == [] then q else Run(Next(q, steps[0]).0, steps[1..])
  }

  /******* What every step keeps *******/

  predicate RowSound(j: Job) {
    && 0 < j.maxAttempts && j.attempts <= j.maxAttempts
    && (j.status.Queued? || j.status.RetryWait? ==> j.lockedBy.None? && j.attempts < j.maxAttempts)
    && (InHand(j) || j.status.Succeeded? ==> j.lockedBy.Some? && 0 < j.attempts)
  }

  predicate Sound(q: Table) {
    && (forall id | id in q :: RowSound(q[id]))
    && (forall i, j | i in q && j in q && i != j && q[i].key.Some? :: q[i].key != q[j].key)
  }

  lemma UpdateKeepsSound(q: Table, id: nat, row: Job)
    requires Sound(q) && id in q && RowSound(row) && row.key == q[id].key
    ensures Sound(q[id := row])
  {
  }

  lemma EnqueueKeepsSound(q: Table, newId: nat, job: NewJob, now: int)
    requires Sound(q)
    ensures Sound(Enqueue(q, newId, job, now))
  {
  }

  /** Owners, attempts and unique idempotency keys survive every step. */
  lemma NextKeepsSound(q: Table, st: Step)
    requires Sound(q)
    ensures Sound(Next(q, st).0)
  {
    match st
    case Create(newId, job, now) => EnqueueKeepsSound(q, newId, job, now);
    case Lease(id, worker, types, now) =>
      if Eligible(q, id, types, now) { UpdateKeepsSound(q, id, LeasedRow(q[id], worker, now)); }
    case Heartbeat(id, worker, now) =>
      if Owns(q, id, worker) { UpdateKeepsSound(q, id, Next(q, st).0[id]); }
    case Progress(id, worker, stage, now) =>
      if Owns(q, id, worker) { UpdateKeepsSound(q, id, Next(q, st).0[id]); }
    case Complete(id, worker) =>
      if Owns(q, id, worker) { UpdateKeepsSound(q, id, Next(q, st).0[id]); }
    case CompleteAndEnqueue(id, worker, successor, newId, now) =>
      if Owns(q, id, worker) {
        var done := q[id].(status := Succeeded, stage := "completed");
        UpdateKeepsSound(q, id, done);
        EnqueueKeepsSound(q[id := done], newId, successor, now);
      }
    case Fail(id, worker, code, message, delay, now) =>
      if id in q { UpdateKeepsSound(q, id, FailWrite(q[id], q[id], worker, code, message, delay, now).0); }
    case Recover(threshold, now) => RecoveryKeepsSound(q, threshold, now);
  }

  lemma RecoveryKeepsSound(q: Table, threshold: int, now: int)
    requires Sound(q)
    ensures Sound(Recovered(q, threshold, now))
  {
    var q' := Recovered(q, threshold, now);
    forall id | id in q' ensures RowSound(q'[id]) && q'[id].key == q[id].key { assert RowSound(q[id]); }
  }

  lemma {:induction false} RunKeepsSound(q: Table, steps: seq<Step>)
    requires Sound(q)
    ensures Sound(Run(q, steps))
    decreases steps
  {
    if steps != [] {
      NextKeepsSound(q, steps[0]);
      RunKeepsSound(Next(q, steps[0]).0, steps[1..]);
    }
  }

  /******* Ownership *******/

  // The worker on whose behalf a step touches row `id`, if it is that kind of step.
  function Actor(st: Step, id: nat): Option<Worker> {
    match st
    case Heartbeat(i, w, _) => if i == id then Some(w) else None
    case Progress(i, w, _, _) => if i == id then Some(w) else None
    case Complete(i, w) => if i == id then Some(w) else None
    case CompleteAndEnqueue(i, w, _, _, _) => if i == id then Some(w) else None
    case Fail(i, w, _, _, _, _) => if i == id then Some(w) else None
    case _ => None
  }

  /** A job in hand has an owner, and its row is changed only on that owner's behalf or by a
      recovery that found its heartbeat stale. */
  lemma OnlyOwnerOrRecovery(q: Table, st: Step, id: nat)
    requires Sound(q) && id in q && InHand(q[id])
    ensures q[id].lockedBy.Some?
    ensures id in Next(q, st).0
    ensures Next(q, st).0[id] != q[id] ==>
      Actor(st, id) == q[id].lockedBy || (st.Recover? && Stale(q[id], st.threshold, st.now))
  {
  }

  /** What a worker that is not the owner can still do.  Its heartbeat, progress and completions
      always return false and change nothing; its fail_job succeeds exactly when the row has no
      lock owner, which is the state stale recovery leaves behind until the next lease. */
  lemma NonOwnerEffect(q: Table, st: Step, id: nat)
    requires Sound(q) && id in q && Actor(st, id).Some? && !Owns(q, id, Actor(st, id).value)
    ensures !st.Fail? ==> Next(q, st) == (q, false)
    ensures st.Fail? ==> (Next(q, st).1 <==> q[id].lockedBy.None?)
    ensures st.Fail? && q[id].lockedBy.Some? ==> Next(q, st) == (q, false)
  {
    if st.Fail? && q[id].lockedBy.Some? {
      assert q[id := q[id]] == q;
    }
  }

  // No step of the list is this worker's lease of the job; other steps are free.
  predicate NeverLeasedBy(steps: seq<Step>, id: nat, worker: Worker) {
    forall i | 0 <= i < |steps| :: !(steps[i].Lease? && steps[i].id == id && steps[i].worker == worker)
  }

  /** Ownership is only ever gained by leasing: once recovery has taken a job from a worker,
      nothing but that worker's own new lease gives it back. */
  lemma {:induction false} OwnershipComesFromLeasing(q: Table, steps: seq<Step>, id: nat, worker: Worker)
    requires !Owns(q, id, worker) && NeverLeasedBy(steps, id, worker)
    ensures !Owns(Run(q, steps), id, worker)
    decreases steps
  {
    if steps != [] {
      var q' := Next(q, steps[0]).0;
      assert !Owns(q', id, worker);
      OwnershipComesFromLeasing(q', steps[1..], id, worker);
    }
  }

  /** A recovered job that someone else has leased again is out of the old worker's reach. */
  lemma OldWorkerIsLockedOut(q: Table, steps: seq<Step>, id: nat, former: Worker, st: Step)
    requires Sound(q) && !Owns(q, id, former) && NeverLeasedBy(steps, id, former)
    requires Actor(st, id) == Some(former)
    requires id in Run(q, steps) && InHand(Run(q, steps)[id])
    ensures Next(Run(q, steps), st) == (Run(q, steps), false)
  {
    RunKeepsSound(q, steps);
    OwnershipComesFromLeasing(q, steps, id, former);
    NonOwnerEffect(Run(q, steps), st, id);
  }

  /** A new row appears only by an explicit enqueue or in the very step that records success. */
  lemma SuccessorsComeFromSuccess(q: Table, st: Step, id: nat)
    requires id in Next(q, st).0 && id !in q
    ensures Next(q, st).0[id].status == Queued && Next(q, st).0[id].attempts == 0
    ensures st.Create? || (st.CompleteAndEnqueue? && Owns(q, st.id, st.worker) && Next(q, st).0[st.id].status == Succeeded)
  {
  }

  /** complete_job_and_enqueue is all or nothing: a true result means the job succeeded and its
      successor is in the table, as a new row exactly when its key was still free; a false one
      means the table is untouched. */
  lemma CompletionCarriesItsSuccessor(q: Table, id: nat, worker: Worker, successor: NewJob, newId: nat, now: int)
    requires newId !in q
    ensures var (q', done) := Next(q, CompleteAndEnqueue(id, worker, successor, newId, now));
            if done then id in q' && q'[id].status == Succeeded
                         && (newId in q' <==> !KeyTaken(q, successor.key))
                         && (successor.key.Some? ==> KeyTaken(q', successor.key))
            else q' == q
  {
    var (q', done) := Next(q, CompleteAndEnqueue(id, worker, successor, newId, now));
    if done {
      var q1 := q[id := q[id].(status := Succeeded, stage := "completed")];
      assert q1.Keys == q.Keys && forall i | i in q :: q1[i].key == q[i].key;
      assert KeyTaken(q1, successor.key) <==> KeyTaken(q, successor.key);
    }
  }

  /** Succeeded is final in every run. */
  lemma {:induction false} SucceededIsFinal(q: Table, steps: seq<Step>, id: nat)
    requires Sound(q) && id in q && q[id].status == Succeeded
    ensures id in Run(q, steps) && Run(q, steps)[id] == q[id]
    decreases steps
  {
    if steps != [] {
      var q' := Next(q, steps[0]).0;
      assert id in q' && q'[id] == q[id];
      NextKeepsSound(q, steps[0]);
      SucceededIsFinal(q', steps[1..], id);
    }
  }

  /** Failed is not: it is revived by exactly one branch, the unguarded retry of a row that
      recovery (or an unguarded failure) left without an owner before its attempts ran out. */
  lemma FailedIsRevivedExactly(q: Table, st: Step, id: nat)
    requires Sound(q) && id in q && q[id].status == Failed
    ensures id in Next(q, st).0
    ensures Next(q, st).0[id].status != Failed <==>
      st.Fail? && st.id == id && q[id].lockedBy.None? && st.delay.Some? && st.delay.value > 0
      && q[id].attempts < q[id].maxAttempts
    ensures Next(q, st).0[id].status != Failed ==> Next(q, st).0[id].status == RetryWait
  {
  }

  /******* Attempts *******/

  function Leases(q: Table, steps: seq<Step>, id: nat): nat
    decreases steps
  {
    if steps == [] then 0
    else (if steps[0].Lease? && steps[0].id == id && Next(q, steps[0]).1 then 1 else 0)
         + Leases(Next(q, steps[0]).0, steps[1..], id)
  }

  lemma AttemptsCountLeases(q: Table, st: Step, id: nat)
    requires id in q
    ensures id in Next(q, st).0 && Next(q, st).0[id].maxAttempts == q[id].maxAttempts
    ensures Next(q, st).0[id].attempts == q[id].attempts + (if st.Lease? && st.id == id && Next(q, st).1 then 1 else 0)
  {
  }

  /** attempt_count is exactly the number of leases, whatever failures, recoveries and unguarded
      fails occur, and no job is leased more than max_attempts times in its whole life. */
  lemma {:induction false} LeasesAreBounded(q: Table, steps: seq<Step>, id: nat)
    requires Sound(q) && id in q
    ensures id in Run(q, steps) && Run(q, steps)[id].maxAttempts == q[id].maxAttempts
    ensures Run(q, steps)[id].attempts == q[id].attempts + Leases(q, steps, id)
    ensures q[id].attempts + Leases(q, steps, id) <= q[id].maxAttempts
    decreases steps
  {
    if steps != [] {
      AttemptsCountLeases(q, steps[0], id);
      NextKeepsSound(q, steps[0]);
      LeasesAreBounded(Next(q, steps[0]).0, steps[1..], id);
    }
  }

  /******* fail_job as the two statements it is *******/

  // The written row is sound, and did not leave `Succeeded`.
  predicate SafeRewrite(row: Job, written: Job) {
    RowSound(written) && (row.status.Succeeded? ==> written.status.Succeeded?)
  }

  // What the write does to whatever row it finds.
  lemma WriteIsSafeExactly(seen: Job, row: Job, worker: Worker, code: string, message: string, delay: Option<nat>, now: int)
    requires RowSound(seen) && RowSound(row) && seen.maxAttempts == row.maxAttempts && seen.attempts <= row.attempts
    ensures SafeRewrite(row, FailWrite(seen, row, worker, code, message, delay, now).0) <==>
      (Writes(seen, row, worker) ==>
         !row.status.Succeeded? && (Retries(seen, delay) ==> row.attempts < row.maxAttempts))
  {
  }

  /** Read and written in one statement, fail_job is always safe. */
  lemma AtomicFailIsSafe(row: Job, worker: Worker, code: string, message: string, delay: Option<nat>, now: int)
    requires RowSound(row)
    ensures SafeRewrite(row, FailWrite(row, row, worker, code, message, delay, now).0)
  {
    WriteIsSafeExactly(row, row, worker, code, message, delay, now);
  }

  // A completion of the job that took effect.
  predicate Completes(q: Table, st: Step, id: nat) {
    ((st.Complete? && st.id == id) || (st.CompleteAndEnqueue? && st.id == id)) && Next(q, st).1
  }

  predicate EverCompletes(q: Table, steps: seq<Step>, id: nat)
    decreases steps
  {
    steps != [] && (Completes(q, steps[0], id) || EverCompletes(Next(q, steps[0]).0, steps[1..], id))
  }

  lemma StepSucceedsExactly(q: Table, st: Step, id: nat)
    requires Sound(q) && id in q && !q[id].status.Succeeded?
    ensures id in Next(q, st).0
    ensures Next(q, st).0[id].status.Succeeded? <==> Completes(q, st, id)
  {
  }

  /** A job is found succeeded exactly when one of its completions took effect. */
  lemma {:induction false} SucceedsExactly(q: Table, steps: seq<Step>, id: nat)
    requires Sound(q) && id in q && !q[id].status.Succeeded?
    ensures id in Run(q, steps)
    ensures Run(q, steps)[id].status.Succeeded? <==> EverCompletes(q, steps, id)
    decreases steps
  {
    if steps != [] {
      var q' := Next(q, steps[0]).0;
      NextKeepsSound(q, steps[0]);
      StepSucceedsExactly(q, steps[0], id);
      if q'[id].status.Succeeded? { SucceededIsFinal(q', steps[1..], id); } else { SucceedsExactly(q', steps[1..], id); }
    }
  }

  // Between the read and the write the job has moved past what was read: a row read without an
  // owner was completed, or the leases since used its last attempt although a retry was decided.
  predicate Overtaken(q: Table, steps: seq<Step>, id: nat, worker: Worker, delay: Option<nat>)
    requires id in q
  {
    && (q[id].lockedBy.None? || (q[id].lockedBy == Some(worker) && Owns(Run(q, steps), id, worker)))
    && ((q[id].lockedBy.None? && EverCompletes(q, steps, id))
        || (Retries(q[id], delay) && q[id].attempts + Leases(q, steps, id) == q[id].maxAttempts))
  }

  /** fail_job reads a row, any steps of any actors follow, and then it writes: the write leaves a
      sound row and no succeeded job undone exactly when the job was not overtaken in between. */
  lemma StaleFailExactly(q: Table, steps: seq<Step>, id: nat, worker: Worker, code: string, message: string, delay: Option<nat>, now: int)
    requires Sound(q) && id in q
    ensures id in Run(q, steps)
    ensures SafeRewrite(Run(q, steps)[id], FailWrite(q[id], Run(q, steps)[id], worker, code, message, delay, now).0) <==>
      !Overtaken(q, steps, id, worker, delay)
  {
    RunKeepsSound(q, steps);
    LeasesAreBounded(q, steps, id);
    if !q[id].status.Succeeded? { SucceedsExactly(q, steps, id); }
    WriteIsSafeExactly(q[id], Run(q, steps)[id], worker, code, message, delay, now);
  }

  /** In particular whenever nobody leased the job in between. */
  lemma UnleasedFailIsSafe(q: Table, steps: seq<Step>, id: nat, worker: Worker, code: string, message: string, delay: Option<nat>, now: int)
    requires Sound(q) && id in q && Leases(q, steps, id) == 0
    ensures id in Run(q, steps)
    ensures SafeRewrite(Run(q, steps)[id], FailWrite(q[id], Run(q, steps)[id], worker, code, message, delay, now).0)
  {
    StaleFailExactly(q, steps, id, worker, code, message, delay, now);
    if q[id].lockedBy.None? { UnleasedIsUnowned(q, steps, id); }
  }

  lemma {:induction false} UnleasedIsUnowned(q: Table, steps: seq<Step>, id: nat)
    requires Sound(q) && id in q && q[id].lockedBy.None? && Leases(q, steps, id) == 0
    ensures !EverCompletes(q, steps, id)
    decreases steps
  {
    if steps != [] {
      NextKeepsSound(q, steps[0]);
      assert Next(q, steps[0]).0[id].lockedBy.None?;
      UnleasedIsUnowned(Next(q, steps[0]).0, steps[1..], id);
    }
  }

  /** A run in which the old worker reads the recovered row, the new worker leases and completes
      it, and the old worker's write then puts a succeeded job back to retry_wait. */
  lemma FailRaceRevivesSucceeded(q: Table, id: nat, former: Worker, current: Worker, now: int)
    requires Sound(q) && id in q && q[id].status == RetryWait && q[id].retryAt <= now && former != current
    ensures var done := Run(q, [Lease(id, current, {q[id].jobType}, now), Complete(id, current)]);
            && id in done && done[id].status == Succeeded
            && FailWrite(q[id], done[id], former, "HANDLER_ERROR", "", Some(5), now).0.status == RetryWait
            && FailWrite(q[id], done[id], former, "HANDLER_ERROR", "", Some(5), now).0.errorCode == former
  {
    var lease, complete := Lease(id, current, {q[id].jobType}, now), Complete(id, current);
    var q1 := Next(q, lease).0;
    assert [lease, complete][1..] == [complete] && [complete][1..] == [];
    assert Run(q, [lease, complete]) == Run(q1, [complete]) == Run(Next(q1, complete).0, []);
  }

  /******* One worker's pass over a leased job *******/

  datatype Handled = Finished | Chained(next: NewJob) | Raised(code: string, message: string)

  datatype Verdict = Verdict(table: Table, completed: bool)

  /** What _process_job leaves behind when other actors' steps run while its handler works. */
  function Processed(q: Table, id: nat, worker: Worker, meanwhile: seq<Step>, handled: Handled, newId: nat, now: int): Verdict {
    var q2 := Run(Next(q, Progress(id, worker, "processing", now)).0, meanwhile);
    var (q3, completed) :=
      match handled
      case Finished => Next(q2, Complete(id, worker))
      case Chained(next) => Next(q2, CompleteAndEnqueue(id, worker, next, newId, now))
      case Raised(_, _) => (q2, false);
    var (code, message) :=
      if handled.Raised? then (handled.code, handled.message) else ("HANDLER_ERROR", "JOB_LEASE_OWNERSHIP_LOST");
    if completed then Verdict(q3, true)
    else Verdict(Next(q3, Fail(id, worker, code, message, Some(5), now)).0, false)
  }

  /** The pass completes exactly when the handler succeeded and the lease was still held when it
      finished; a worker whose job is locked by another one leaves the table as it found it. */
  lemma ProcessedExactly(q: Table, id: nat, worker: Worker, meanwhile: seq<Step>, handled: Handled, newId: nat, now: int)
    requires Sound(q) && (handled.Chained? ==> handled.next.maxAttempts > 0)
    ensures var q2 := Run(Next(q, Progress(id, worker, "processing", now)).0, meanwhile);
            var v := Processed(q, id, worker, meanwhile, handled, newId, now);
            && (v.completed <==> !handled.Raised? && Owns(q2, id, worker))
            && (v.completed ==> v.table[id].status == Succeeded)
            && (id in q2 && !Owns(q2, id, worker) && q2[id].lockedBy.Some? ==> v.table == q2)
            && Sound(v.table)
  {
    var progress := Progress(id, worker, "processing", now);
    NextKeepsSound(q, progress);
    var q2 := Run(Next(q, progress).0, meanwhile);
    RunKeepsSound(Next(q, progress).0, meanwhile);
    NextKeepsSound(q2, Complete(id, worker));
    if handled.Chained? { NextKeepsSound(q2, CompleteAndEnqueue(id, worker, handled.next, newId, now)); }
    var fail := if handled.Raised? then Fail(id, worker, handled.code, handled.message, Some(5), now)
                else Fail(id, worker, "HANDLER_ERROR", "JOB_LEASE_OWNERSHIP_LOST", Some(5), now);
    NextKeepsSound(q2, fail);
    if id in q2 && !Owns(q2, id, worker) && q2[id].lockedBy.Some? { NonOwnerEffect(q2, fail, id); }
  }

  /******* Recovery as its two statements *******/

  function RetriedIfStale(j: Job, threshold: int, now: int): Job {
    if Stale(j, threshold, now) && j.attempts < j.maxAttempts then RetriedRow(j, now) else j
  }

  function ExpiredIfStale(j: Job, threshold: int, now: int): Job {
    if Stale(j, threshold, now) && j.attempts >= j.maxAttempts then ExpiredRow(j) else j
  }

  function RetryStale(q: Table, threshold: int, now: int): Table {
    map id | id in q :: RetriedIfStale(q[id], threshold, now)
  }

  function ExpireStale(q: Table, threshold: int, now: int): Table {
    map id | id in q :: ExpiredIfStale(q[id], threshold, now)
  }

  lemma RowRecovers(j: Job, threshold: int, now: int)
    ensures ExpiredIfStale(RetriedIfStale(j, threshold, now), threshold, now) == RecoveredRow(j, threshold, now)
  {
  }

  /** Retrying what has attempts left and then expiring the rest recovers each stale row once. */
  lemma TwoStatementsRecover(q: Table, threshold: int, now: int)
    ensures ExpireStale(RetryStale(q, threshold, now), threshold, now) == Recovered(q, threshold, now)
  {
    forall id | id in q ensures ExpiredIfStale(RetriedIfStale(q[id], threshold, now), threshold, now) == RecoveredRow(q[id], threshold, now) {
      RowRecovers(q[id], threshold, now);
    }
  }

  /******* The repository *******/

  class JobRepository {
    var jobs: Table

    constructor ()
      ensures jobs == map[] && Sound(jobs)
    {
      jobs := map[];
    }

    /** Leases the oldest eligible row not locked by a concurrent transaction. */
    method LeaseJob(worker: Worker, types: set<string>, skipped: set<nat>, now: int) returns (leased: Option<nat>)
      modifies this
      ensures leased.None? <==> forall id | id in old(jobs) :: !Eligible(old(jobs), id, types, now) || id in skipped
      ensures leased.None? ==> jobs == old(jobs)
      ensures leased.Some? ==>
        && Eligible(old(jobs), leased.value, types, now) && leased.value !in skipped
        && (forall id | id in old(jobs) && Eligible(old(jobs), id, types, now) && id !in skipped ::
              old(jobs)[leased.value].createdAt <= old(jobs)[id].createdAt)
        && (jobs, true) == Next(old(jobs), Lease(leased.value, worker, types, now))
    {
      var rest := jobs.Keys;
      leased := None;
      while rest != {}
        invariant rest <= jobs.Keys && jobs == old(jobs)
        invariant leased.Some? ==> Eligible(jobs, leased.value, types, now) && leased.value !in skipped
        invariant forall id | id in jobs && id !in rest && Eligible(jobs, id, types, now) && id !in skipped ::
                    leased.Some? && jobs[leased.value].createdAt <= jobs[id].createdAt
        decreases |rest|
      {
        var id :| id in rest;
        rest := rest - {id};
        if Eligible(jobs, id, types, now) && id !in skipped
           && (leased.None? || jobs[id].createdAt < jobs[leased.value].createdAt) {
          leased := Some(id);
        }
      }
      if leased.Some? {
        var j := jobs[leased.value];
        jobs := jobs[leased.value := j.(status := Leased, stage := "leased", lockedBy := Some(worker),
                                        heartbeatAt := now, attempts := j.attempts + 1)];
      }
    }

    method CreateJob(job: NewJob, newId: nat, now: int)
      modifies this
      ensures (jobs, true) == Next(old(jobs), Create(newId, job, now))
    {
      if newId !in jobs && !KeyTaken(jobs, job.key) && job.maxAttempts > 0 {
        jobs := jobs[newId := Job(job.jobType, job.key, Queued, "pending", None, 0, job.maxAttempts, now, now, now, "", "")];
      }
    }

    method UpdateHeartbeat(id: nat, worker: Worker, now: int) returns (done: bool)
      modifies this
      ensures (jobs, done) == Next(old(jobs), Heartbeat(id, worker, now))
    {
      done := Owns(jobs, id, worker);
      if done { jobs := jobs[id := jobs[id].(heartbeatAt := now)]; }
    }

    method UpdateProgress(id: nat, worker: Worker, stage: string, now: int) returns (done: bool)
      modifies this
      ensures (jobs, done) == Next(old(jobs), Progress(id, worker, stage, now))
    {
      done := Owns(jobs, id, worker);
      if done { jobs := jobs[id := jobs[id].(status := Running, stage := stage, heartbeatAt := now)]; }
    }

    method CompleteJob(id: nat, worker: Worker) returns (done: bool)
      modifies this
      ensures (jobs, done) == Next(old(jobs), Complete(id, worker))
    {
      done := Owns(jobs, id, worker);
      if done {
        jobs := jobs[id := jobs[id].(status := Succeeded, stage := "completed")];
      }
    }

    method CompleteJobAndEnqueue(id: nat, worker: Worker, next: NewJob, newId: nat, now: int) returns (done: bool)
      modifies this
      ensures (jobs, done) == Next(old(jobs), CompleteAndEnqueue(id, worker, next, newId, now))
    {
      if next.maxAttempts == 0 {
        return false;
      }
      done := CompleteJob(id, worker);
      if done {
        jobs := Enqueue(jobs, newId, next, now);
      }
    }

    method FailJob(id: nat, worker: Worker, code: string, message: string, delay: Option<nat>, now: int) returns (done: bool)
      modifies this
      ensures (jobs, done) == Next(old(jobs), Fail(id, worker, code, message, delay, now))
    {
      if id !in jobs {
        return false;
      }
      var job := jobs[id];
      var errorCode, errorMessage := code, message;
      if job.lockedBy.Some? {
        if job.lockedBy.value != worker || !(job.status == Leased || job.status == Running) {
          assert jobs[id := job] == jobs;
          return false;
        }
      } else {
        errorCode, errorMessage := worker, code;
      }
      job := job.(errorCode := errorCode, errorMessage := errorMessage);
      if delay.Some? && delay.value > 0 && job.attempts < job.maxAttempts {
        job := job.(status := RetryWait, lockedBy := None, retryAt := now + delay.value);
      } else {
        job := job.(status := Failed);
      }
      jobs := jobs[id := job];
      done := true;
    }

    /** The two recovery statements, one after the other. */
    method RecoverStaleJobs(threshold: int, now: int)
      modifies this
      ensures (jobs, true) == Next(old(jobs), Recover(threshold, now))
    {
      TwoStatementsRecover(jobs, threshold, now);
      jobs := RetryStale(jobs, threshold, now);
      jobs := ExpireStale(jobs, threshold, now);
    }

    /** _process_job: progress, handler, completion, and failure of whatever did not complete. */
    method ProcessJob(id: nat, worker: Worker, meanwhile: seq<Step>, handled: Handled, newId: nat, now: int)
      returns (completed: bool)
      modifies this
      ensures Verdict(jobs, completed) == Processed(old(jobs), id, worker, meanwhile, handled, newId, now)
    {
      var _ := UpdateProgress(id, worker, "processing", now);
      jobs := Run(jobs, meanwhile);
      completed := false;
      match handled {
        case Finished => completed := CompleteJob(id, worker);
        case Chained(next) => completed := CompleteJobAndEnqueue(id, worker, next, newId, now);
        case Raised(_, _) =>
      }
      if !completed {
        var code, message := "HANDLER_ERROR", "JOB_LEASE_OWNERSHIP_LOST";
        if handled.Raised? { code, message := handled.code, handled.message; }
        var _ := FailJob(id, worker, code, message, Some(5), now);
      }
    }
  }
}
