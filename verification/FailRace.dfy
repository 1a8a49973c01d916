/** The job queue with fail_job as the two statements it is: any number of calls may each have
    read a row and not yet written, while the other statements and calls go on. */
module FailRace {
  import opened Wrappers
  import opened JobQueue

  // A call that has read its row.  The last two components are history: how often the job was
  // leased since, and whether it was completed.
  datatype Call = Call(id: nat, worker: Worker, seen: Job, delay: Option<nat>, leases: nat, completed: bool)

  datatype World = World(table: Table, calls: map<nat, Call>)

  datatype Step =
    | Statement(st: JobQueue.Step)
    | ReadFail(call: nat, id: nat, worker: Worker, delay: Option<nat>)
    | WriteFail(call: nat, code: string, message: string, now: int)

  // What a call remembers of a statement of others.
  function Noted(c: Call, q: Table, st: JobQueue.Step): Call {
    c.(leases := c.leases + (if st.Lease? && st.id == c.id && JobQueue.Next(q, st).1 then 1 else 0),
       completed := c.completed || Completes(q, st, c.id))
  }

  function AllNoted(calls: map<nat, Call>, q: Table, st: JobQueue.Step): map<nat, Call> {
    map k | k in calls :: Noted(calls[k], q, st)
  }

  function Written(q: Table, c: Call, code: string, message: string, now: int): Job
    requires c.id in q
  {
    FailWrite(c.seen, q[c.id], c.worker, code, message, c.delay, now).0
  }

  function Next(w: World, st: Step): World {
    match st
    case Statement(s) =>
      // fail_job is only taken apart here.
      if s.Fail? then w else World(JobQueue.Next(w.table, s).0, AllNoted(w.calls, w.table, s))
    case ReadFail(call, id, worker, delay) =>
      if id !in w.table || call in w.calls then w
      else w.(calls := w.calls[call := Call(id, worker, w.table[id], delay, 0, false)])
    case WriteFail(call, code, message, now) =>
      if call !in w.calls || w.calls[call].id !in w.table then w
      else
        var c := w.calls[call];
        World(w.table[c.id := Written(w.table, c, code, message, now)], w.calls - {call})
  }

  function Run(w: World, steps: seq<Step>): World
    decreases steps
  {
    if steps == [] then w else Run(Next(w, steps[0]), steps[1..])
  }

  /******* Overtaken writes *******/

  // The call writes, although the job it read as ownerless was completed since, or the leases
  // since used the last attempt of a job it is to retry.
  predicate Overtaken(q: Table, c: Call)
    requires c.id in q
  {
    && Writes(c.seen, q[c.id], c.worker)
    && ((c.seen.lockedBy.None? && c.completed) || (Retries(c.seen, c.delay) && c.seen.attempts + c.leases >= c.seen.maxAttempts))
  }

  predicate Overtakes(w: World, st: Step) {
    st.WriteFail? && st.call in w.calls && w.calls[st.call].id in w.table && Overtaken(w.table, w.calls[st.call])
  }

  // What a call's history says of the row it read and the row there is.
  predicate CallSound(q: Table, c: Call) {
    && c.id in q && RowSound(c.seen)
    && q[c.id].maxAttempts == c.seen.maxAttempts && q[c.id].attempts == c.seen.attempts + c.leases
    && (c.seen.lockedBy.None? ==> (q[c.id].status.Succeeded? <==> c.completed))
    && (c.seen.lockedBy.None? && c.leases == 0 ==> q[c.id].lockedBy.None?)
  }

  predicate WorldSound(w: World) {
    Sound(w.table) && forall k | k in w.calls :: CallSound(w.table, w.calls[k])
  }

  predicate SucceededKept(q: Table, q': Table) {
    forall id | id in q && q[id].status.Succeeded? :: id in q' && q'[id] == q[id]
  }

  lemma NotedStaysSound(q: Table, c: Call, st: JobQueue.Step)
    requires Sound(q) && CallSound(q, c) && !st.Fail?
    ensures CallSound(JobQueue.Next(q, st).0, Noted(c, q, st))
  {
    AttemptsCountLeases(q, st, c.id);
    if q[c.id].status.Succeeded? {
      SucceededStays(q, st, c.id);
    } else {
      StepSucceedsExactly(q, st, c.id);
    }
    if q[c.id].lockedBy.None? { LockComesFromLease(q, st, c.id); }
  }

  lemma SucceededStays(q: Table, st: JobQueue.Step, id: nat)
    requires Sound(q) && id in q && q[id].status.Succeeded?
    ensures id in JobQueue.Next(q, st).0 && JobQueue.Next(q, st).0[id] == q[id]
  {
    assert RowSound(q[id]);
    SucceededIsFinal(q, [st], id);
    assert JobQueue.Run(q, [st]) == JobQueue.Run(JobQueue.Next(q, st).0, []);
  }

  lemma LockComesFromLease(q: Table, st: JobQueue.Step, id: nat)
    requires id in q && q[id].lockedBy.None?
    ensures JobQueue.Next(q, st).0[id].lockedBy.Some? ==> st.Lease? && st.id == id && JobQueue.Next(q, st).1
  {
  }

  lemma StatementKeeps(w: World, st: JobQueue.Step)
    requires WorldSound(w) && !st.Fail?
    ensures WorldSound(Next(w, Statement(st))) && SucceededKept(w.table, Next(w, Statement(st)).table)
  {
    NextKeepsSound(w.table, st);
    forall k | k in w.calls ensures CallSound(JobQueue.Next(w.table, st).0, Noted(w.calls[k], w.table, st)) {
      NotedStaysSound(w.table, w.calls[k], st);
    }
    forall id | id in w.table && w.table[id].status.Succeeded? ensures id in JobQueue.Next(w.table, st).0 && JobQueue.Next(w.table, st).0[id] == w.table[id] {
      SucceededStays(w.table, st, id);
    }
  }

  // Another call's sound write changes nothing this call's history says.
  lemma WriteKeepsOthers(q: Table, c: Call, id: nat, row: Job)
    requires Sound(q) && CallSound(q, c) && id in q && RowSound(row)
    requires row.maxAttempts == q[id].maxAttempts && row.attempts == q[id].attempts
    requires row.status.Succeeded? <==> q[id].status.Succeeded?
    requires q[id].lockedBy.None? ==> row.lockedBy.None?
    ensures CallSound(q[id := row], c)
  {
  }

  lemma WriteExactly(w: World, call: nat, code: string, message: string, now: int)
    requires WorldSound(w) && call in w.calls
    ensures var w' := Next(w, WriteFail(call, code, message, now));
            && (Sound(w'.table) && SucceededKept(w.table, w'.table) <==> !Overtakes(w, WriteFail(call, code, message, now)))
            && (!Overtakes(w, WriteFail(call, code, message, now)) ==> WorldSound(w'))
  {
    var c := w.calls[call];
    var row, written := w.table[c.id], Written(w.table, c, code, message, now);
    WriteIsSafeExactly(c.seen, row, c.worker, code, message, c.delay, now);
    assert SafeRewrite(row, written) <==> !Overtaken(w.table, c);
    if SafeRewrite(row, written) {
      UpdateKeepsSound(w.table, c.id, written);
      forall k | k in w.calls && k != call ensures CallSound(w.table[c.id := written], w.calls[k]) {
        WriteKeepsOthers(w.table, w.calls[k], c.id, written);
      }
    } else {
      assert w.table[c.id := written][c.id] == written;
    }
  }

  /** A step leaves the table sound and every succeeded job as it is, exactly unless it is the
      write of an overtaken call. */
  lemma StepFineExactly(w: World, st: Step)
    requires WorldSound(w)
    ensures Sound(Next(w, st).table) && SucceededKept(w.table, Next(w, st).table) <==> !Overtakes(w, st)
    ensures !Overtakes(w, st) ==> WorldSound(Next(w, st))
  {
    match st
    case Statement(s) => if !s.Fail? { StatementKeeps(w, s); }
    case ReadFail(call, id, worker, delay) =>
    case WriteFail(call, code, message, now) => if call in w.calls { WriteExactly(w, call, code, message, now); }
  }

  predicate AlwaysFine(w: World, steps: seq<Step>)
    decreases steps
  {
    && Sound(w.table)
    && (steps != [] ==> SucceededKept(w.table, Next(w, steps[0]).table) && AlwaysFine(Next(w, steps[0]), steps[1..]))
  }

  predicate EverOvertakes(w: World, steps: seq<Step>)
    decreases steps
  {
    steps != [] && (Overtakes(w, steps[0]) || EverOvertakes(Next(w, steps[0]), steps[1..]))
  }

  /** Over a whole run owners, attempts and keys stay sound and succeeded jobs final at every point
      exactly when no call of the run writes overtaken. */
  lemma {:induction false} RunFineExactly(w: World, steps: seq<Step>)
    requires WorldSound(w)
    ensures AlwaysFine(w, steps) <==> !EverOvertakes(w, steps)
    decreases steps
  {
    if steps != [] {
      StepFineExactly(w, steps[0]);
      if !Overtakes(w, steps[0]) { RunFineExactly(Next(w, steps[0]), steps[1..]); }
    }
  }

  /** Only a call whose job was leased since its read can write overtaken. */
  lemma OvertakenNeedsALease(w: World, st: Step)
    requires WorldSound(w) && Overtakes(w, st)
    ensures w.calls[st.call].leases > 0
  {
    var c := w.calls[st.call];
    assert CallSound(w.table, c) && RowSound(w.table[c.id]);
  }

  /******* A run from the empty table *******/

  lemma RunFront(w: World, st: Step, rest: seq<Step>)
    ensures Run(w, [st] + rest) == Run(Next(w, st), rest)
  {
    assert ([st] + rest)[1..] == rest;
  }

  lemma {:induction false} RunAppend(w: World, a: seq<Step>, b: seq<Step>)
    ensures Run(w, a + b) == Run(Run(w, a), b)
    decreases a
  {
    if a == [] {
      assert a + b == b;
    } else {
      assert a + b == [a[0]] + (a[1..] + b);
      RunFront(w, a[0], a[1..] + b);
      RunAppend(Next(w, a[0]), a[1..], b);
    }
  }

  const EMPTY := World(map[], map[])
  const JOB := NewJob("t", None, 3)

  // A worker loses its job to stale recovery, and its failing handler reads the recovered row...
  function Losing(a: Worker): seq<Step> {
    [Statement(Create(0, JOB, 0)), Statement(Lease(0, a, {"t"}, 0)), Statement(Recover(60, 100)), ReadFail(0, 0, a, Some(5))]
  }

  // ...another worker leases and completes the job, and only then does the first one write.
  function Overtaking(b: Worker): seq<Step> {
    [Statement(Lease(0, b, {"t"}, 105)), Statement(Complete(0, b)), WriteFail(0, "HANDLER_ERROR", "", 106)]
  }

  const RECOVERED := Job("t", None, RetryWait, "leased", None, 1, 3, 0, 0, 105, "", "")

  lemma LosingLoses(a: Worker)
    ensures Run(EMPTY, Losing(a)) == World(map[0 := RECOVERED], map[0 := Call(0, a, RECOVERED, Some(5), 0, false)])
  {
    var s := Losing(a);
    var w1 := Next(EMPTY, s[0]);
    var w2 := Next(w1, s[1]);
    var w3 := Next(w2, s[2]);
    assert w1 == World(map[0 := QueuedRow(JOB, 0)], map[]);
    assert w2 == World(map[0 := LeasedRow(QueuedRow(JOB, 0), a, 0)], map[]);
    assert w3 == World(map[0 := RECOVERED], map[]);
    RunFront(EMPTY, s[0], s[1..]);
    RunFront(w1, s[1], s[2..]);
    RunFront(w2, s[2], s[3..]);
    RunFront(w3, s[3], []);
  }

  /** From the empty table: the first worker's write puts the job that the second one completed
      back to retry_wait. */
  lemma OvertakenWriteRevives(a: Worker, b: Worker)
    ensures var steps := Losing(a) + Overtaking(b);
            var before, after := Run(EMPTY, steps[..6]), Run(EMPTY, steps);
            && 0 in before.table && before.table[0].status.Succeeded?
            && 0 in after.table && after.table[0].status.RetryWait? && after.table[0].errorCode == a
  {
    var w, s := World(map[0 := RECOVERED], map[0 := Call(0, a, RECOVERED, Some(5), 0, false)]), Overtaking(b);
    LosingLoses(a);
    assert (Losing(a) + s)[..6] == Losing(a) + s[..2];
    RunAppend(EMPTY, Losing(a), s[..2]);
    RunAppend(EMPTY, Losing(a), s);
    RunAppend(w, s[..2], [s[2]]);
    assert s == s[..2] + [s[2]];
    CompletedMeanwhile(w, b, s[..2]);
    RunFront(Run(w, s[..2]), s[2], []);
  }

  lemma CompletedMeanwhile(w: World, b: Worker, s: seq<Step>)
    requires 0 in w.table && w.table[0] == RECOVERED && 0 in w.calls && s == Overtaking(b)[..2]
    ensures var w' := Run(w, s);
            && 0 in w'.table && w'.table[0].status.Succeeded? && w'.table[0].maxAttempts == 3
            && 0 in w'.calls && w'.calls[0].id == w.calls[0].id && w'.calls[0].seen == w.calls[0].seen
            && w'.calls[0].worker == w.calls[0].worker && w'.calls[0].delay == w.calls[0].delay
  {
    RunFront(w, s[0], [s[1]]);
    RunFront(Next(w, s[0]), s[1], []);
    assert s == [s[0]] + [s[1]];
  }
}
