/** The answer job's chain on the queue: the workers that lease, answer, complete and fail its jobs
    and may stop anywhere, with retries, duplicate deliveries, lost leases and recoveries, while any
    others act on the paper.  fail_job is one statement here. */
module AnswerQueue {
  import opened Wrappers
  import opened AnswerTables
  import AnswerInvariants
  import Decimal
  import Queue = JobQueue
  import Service = AnswerService

  // A worker with one of the chain's jobs, from its lease on.  `before` are the items it began
  // with, `left` is what it returned to chain with.
  datatype Handler =
    | Leased(id: nat, worker: Queue.Worker)
    | Working(id: nat, worker: Queue.Worker, before: seq<Item>)
    | Returned(id: nat, worker: Queue.Worker, before: seq<Item>, left: nat)
    | Done(id: nat, worker: Queue.Worker)
    | Raised(id: nat, worker: Queue.Worker)
    | Failing(id: nat, worker: Queue.Worker)

  // `prefix` is the key of the first job, which names the paper and the epoch.
  datatype State = State(prefix: string, epoch: nat, table: Queue.Table, world: World, handlers: map<nat, Handler>)

  datatype Move =
    | OnQueue(statement: Queue.Step)
    | OnPaperTables(step: Step)
    | LeaseRun(handler: nat, id: nat, worker: Queue.Worker, types: set<string>, now: int)
    | BeginRun(handler: nat)
    | ReturnChained(handler: nat, left: nat)
    | ReturnDone(handler: nat)
    | CompleteRun(handler: nat, newId: nat, now: int)
    | RaiseRun(handler: nat)
    | FailRun(handler: nat, code: string, message: string, now: int)
    | MarkRun(handler: nat)
    | StopRun(handler: nat)

  /******* Keys *******/

  function KeyOf(prefix: string, left: nat): string {
    prefix + ":" + Decimal.Digits(left)
  }

  // How many items the key says are left; the first job's key says nothing.
  function LeftOf(prefix: string, key: Option<string>): (left: Option<nat>)
    ensures left.Some? ==> key == Some(KeyOf(prefix, left.value))
  {
    if key.None? || |key.value| <= |prefix| then None
    else
      var left := Decimal.Value(key.value[|prefix| + 1..]);
      if key.value == KeyOf(prefix, left) then Some(left) else None
  }

  lemma KeySaysLeft(prefix: string, left: nat)
    ensures LeftOf(prefix, Some(KeyOf(prefix, left))) == Some(left)
    ensures LeftOf(prefix, Some(prefix)).None?
  {
    assert KeyOf(prefix, left)[|prefix| + 1..] == Decimal.Digits(left);
    Decimal.DigitsHaveTheirValue(left);
  }

  predicate OfChain(prefix: string, key: Option<string>) {
    key == Some(prefix) || LeftOf(prefix, key).Some?
  }

  // The first job comes before every other, and then the larger number before the smaller.
  predicate Precedes(prefix: string, a: Option<string>, b: Option<string>) {
    LeftOf(prefix, b).Some? && (a == Some(prefix) || (LeftOf(prefix, a).Some? && LeftOf(prefix, a).value > LeftOf(prefix, b).value))
  }

  /******* The moves *******/

  predicate ChainRow(prefix: string, q: Queue.Table, id: nat) {
    id in q && OfChain(prefix, q[id].key)
  }

  // Chain jobs are only enqueued, leased, completed and failed by the chain's own workers; anyone
  // may recover them.
  predicate Foreign(prefix: string, q: Queue.Table, st: Queue.Step) {
    match st
    case Create(_, job, _) => !OfChain(prefix, job.key)
    case Lease(id, _, _, _) => !ChainRow(prefix, q, id)
    case Complete(id, _) => !ChainRow(prefix, q, id)
    case CompleteAndEnqueue(id, _, successor, _, _) => !ChainRow(prefix, q, id) && !OfChain(prefix, successor.key)
    case Fail(id, _, _, _, _, _) => !ChainRow(prefix, q, id)
    case _ => true
  }

  predicate AtWork(s: State) {
    exists h | h in s.handlers :: s.handlers[h].Working?
  }

  // The statements of answer runs take a handler at work; mark_queue_failure is a move of its own.
  predicate Allowed(s: State, a: Action) {
    match a
    case OnPaper(_) => true
    case Extract(_) => true
    case CorrectItem(_, _) => true
    case Start(_) => true
    case ApproveAnswer(_, _) => true
    case FailRest => false
    case _ => AtWork(s)
  }

  function Successor(prefix: string, left: nat): Queue.NewJob {
    Queue.NewJob("multiple_ask_answer", Some(KeyOf(prefix, left)), 3)
  }

  function Completion(prefix: string, h: Handler, newId: nat, now: int): Queue.Step {
    if h.Returned? then Queue.CompleteAndEnqueue(h.id, h.worker, Successor(prefix, h.left), newId, now)
    else Queue.Complete(h.id, h.worker)
  }

  function FailureOf(h: Handler, code: string, message: string, now: int): Queue.Step {
    Queue.Fail(h.id, h.worker, code, message, Some(5), now)
  }

  // finish_answers has returned a final status.
  predicate Settled(db: Db) {
    !AnyOpen(db.items) && (!db.overridden ==> !db.paper.workflow.InAnswering?)
  }

  function Begun(s: State, h: Handler): Handler {
    var db := s.world.db;
    if db.paper.workflow.InAnswering? && db.epoch == s.epoch then Working(h.id, h.worker, db.items) else Done(h.id, h.worker)
  }

  function Completed(s: State, handler: nat, newId: nat, now: int): State
    requires handler in s.handlers
  {
    var h := s.handlers[handler];
    var (q, done) := Queue.Next(s.table, Completion(s.prefix, h, newId, now));
    // A completion that finds the lease lost raises.
    s.(table := q, handlers := if done then s.handlers - {handler} else s.handlers[handler := Raised(h.id, h.worker)])
  }

  // The failed job's row is read again, and mark_queue_failure follows when it is failed for good.
  predicate Marks(s: State, handler: nat) {
    && handler in s.handlers && s.handlers[handler].Failing?
    && s.handlers[handler].id in s.table && s.table[s.handlers[handler].id].status.Failed?
  }

  function Next(s: State, m: Move): State {
    match m
    case OnQueue(st) => if Foreign(s.prefix, s.table, st) then s.(table := Queue.Next(s.table, st).0) else s
    case OnPaperTables(st) => if Allowed(s, st.action) then s.(world := AnswerTables.Next(s.world, st)) else s
    case LeaseRun(h, id, worker, types, now) =>
      if h in s.handlers || !ChainRow(s.prefix, s.table, id) || !Queue.Eligible(s.table, id, types, now) then s
      else s.(table := Queue.Next(s.table, Queue.Lease(id, worker, types, now)).0, handlers := s.handlers[h := Leased(id, worker)])
    case BeginRun(h) =>
      if h !in s.handlers || !s.handlers[h].Leased? then s
      else s.(handlers := s.handlers[h := Begun(s, s.handlers[h])])
    case ReturnChained(h, left) =>
      if h !in s.handlers || !s.handlers[h].Working? || !Service.ChainsOn(s.handlers[h].before, s.world.db.items, left) then s
      else s.(handlers := s.handlers[h := Returned(s.handlers[h].id, s.handlers[h].worker, s.handlers[h].before, left)])
    case ReturnDone(h) =>
      if h !in s.handlers || !s.handlers[h].Working? || !Settled(s.world.db) then s
      else s.(handlers := s.handlers[h := Done(s.handlers[h].id, s.handlers[h].worker)])
    case CompleteRun(h, newId, now) =>
      if h !in s.handlers || !(s.handlers[h].Returned? || s.handlers[h].Done?) || newId in s.table then s
      else Completed(s, h, newId, now)
    case RaiseRun(h) =>
      if h !in s.handlers || !(s.handlers[h].Leased? || s.handlers[h].Working?) then s
      else s.(handlers := s.handlers[h := Raised(s.handlers[h].id, s.handlers[h].worker)])
    case FailRun(h, code, message, now) =>
      if h !in s.handlers || !s.handlers[h].Raised? then s
      else s.(table := Queue.Next(s.table, FailureOf(s.handlers[h], code, message, now)).0,
              handlers := s.handlers[h := Failing(s.handlers[h].id, s.handlers[h].worker)])
    case MarkRun(h) =>
      if h !in s.handlers || !s.handlers[h].Failing? then s
      else s.(world := if Marks(s, h) then AnswerTables.Next(s.world, Step(h, FailRest)) else s.world, handlers := s.handlers - {h})
    case StopRun(h) => s.(handlers := s.handlers - {h})
  }

  function Run(s: State, moves: seq<Move>): State
    decreases moves
  {
    if moves == [] then s else Run(Next(s, moves[0]), moves[1..])
  }

  /******* What every move keeps *******/

  // No more items are open than a job's key says are left...
  predicate KeysBound(prefix: string, q: Queue.Table, items: seq<Item>) {
    forall id | id in q && LeftOf(prefix, q[id].key).Some? :: |Service.OpenSet(items)| <= LeftOf(prefix, q[id].key).value
  }

  // ...a job has succeeded once one that it precedes is there, and has failed only when its
  // attempts are used up...
  predicate Ordered(prefix: string, q: Queue.Table) {
    forall i, j | i in q && j in q && Precedes(prefix, q[i].key, q[j].key) :: q[i].status.Succeeded?
  }

  predicate Spent(j: Queue.Job) {
    j.attempts >= j.maxAttempts
  }

  predicate FailedSpent(prefix: string, q: Queue.Table) {
    forall id | id in q && OfChain(prefix, q[id].key) && q[id].status.Failed? :: Spent(q[id])
  }

  // ...and a handler began with no more open items than its job's key says, and what it returned
  // with still holds.
  predicate HandlerSound(prefix: string, q: Queue.Table, items: seq<Item>, h: Handler) {
    && ChainRow(prefix, q, h.id)
    && (h.Working? || h.Returned? ==>
          LeftOf(prefix, q[h.id].key).Some? ==> |Service.OpenSet(h.before)| <= LeftOf(prefix, q[h.id].key).value)
    && (h.Returned? ==> Service.ChainsOn(h.before, items, h.left))
  }

  predicate TableSound(prefix: string, q: Queue.Table, items: seq<Item>) {
    Queue.Sound(q) && KeysBound(prefix, q, items) && Ordered(prefix, q) && FailedSpent(prefix, q)
  }

  predicate HandlersSound(s: State) {
    forall h | h in s.handlers :: HandlerSound(s.prefix, s.table, s.world.db.items, s.handlers[h])
  }

  predicate Sound(s: State) {
    && AnswerTables.Sound(s.world) && Service.Clear(s.world.db.items)
    && TableSound(s.prefix, s.table, s.world.db.items) && HandlersSound(s)
  }

  // The table right after start_for_job: of the chain it holds at most the first job.
  predicate Starting(s: State) {
    && Queue.Sound(s.table) && AnswerTables.Sound(s.world) && s.world.db.paper.workflow.InAnswering? && s.handlers == map[]
    && forall id | id in s.table && OfChain(s.prefix, s.table[id].key) :: LeftOf(s.prefix, s.table[id].key).None? && s.table[id].status.Queued?
  }

  lemma StartingIsSound(s: State)
    requires Starting(s)
    ensures Sound(s)
  {
  }

  // Rows keep their keys; succeeded ones stay so, and of the chain failed ones too, which fail only
  // with their attempts used up.
  predicate RowKept(prefix: string, a: Queue.Job, b: Queue.Job) {
    && b.key == a.key && (a.status.Succeeded? ==> b.status.Succeeded?)
    && (OfChain(prefix, a.key) ==> (a.status.Failed? ==> b.status.Failed?) && (b.status.Failed? ==> Spent(b)))
  }

  predicate RowsKept(prefix: string, q: Queue.Table, q': Queue.Table) {
    && (forall id | id in q :: id in q' && RowKept(prefix, q[id], q'[id]))
    && (forall id | id in q' && id !in q :: !OfChain(prefix, q'[id].key))
  }

  lemma KeyStays(q: Queue.Table, st: Queue.Step, id: nat)
    requires id in q
    ensures id in Queue.Next(q, st).0 && Queue.Next(q, st).0[id].key == q[id].key
  {
  }

  lemma SucceededStays(q: Queue.Table, st: Queue.Step, id: nat)
    requires Queue.Sound(q) && id in q && q[id].status.Succeeded?
    ensures id in Queue.Next(q, st).0 && Queue.Next(q, st).0[id].status.Succeeded?
  {
    Queue.SucceededIsFinal(q, [st], id);
    assert Queue.Run(q, [st]) == Queue.Run(Queue.Next(q, st).0, []);
  }

  // A failure of a chain job, always with a retry delay.
  predicate OwnFailure(st: Queue.Step) {
    st.Fail? && st.delay == Some(5)
  }

  lemma FailedRowKept(q: Queue.Table, st: Queue.Step, id: nat)
    requires Queue.Sound(q) && id in q && (st.Fail? && st.id == id ==> OwnFailure(st))
    requires q[id].status.Failed? ==> Spent(q[id])
    ensures var q' := Queue.Next(q, st).0;
            id in q' && (q[id].status.Failed? ==> q'[id].status.Failed?) && (q'[id].status.Failed? ==> Spent(q'[id]))
  {
    Queue.AttemptsCountLeases(q, st, id);
    if q[id].status.Failed? { Queue.FailedIsRevivedExactly(q, st, id); } else { FailingIsSpent(q, st, id); }
  }

  lemma FailingIsSpent(q: Queue.Table, st: Queue.Step, id: nat)
    requires Queue.Sound(q) && id in q && !q[id].status.Failed? && (st.Fail? && st.id == id ==> OwnFailure(st))
    ensures id in Queue.Next(q, st).0 && (Queue.Next(q, st).0[id].status.Failed? ==> Spent(Queue.Next(q, st).0[id]))
  {
    match st
    case Fail(_, _, _, _, _, _) => FailureIsSpent(q, st, id);
    case Recover(_, _) => RecoveryIsSpent(q, st, id);
    case _ =>
  }

  lemma FailureIsSpent(q: Queue.Table, st: Queue.Step, id: nat)
    requires id in q && !q[id].status.Failed? && st.Fail? && (st.id == id ==> OwnFailure(st))
    ensures id in Queue.Next(q, st).0 && (Queue.Next(q, st).0[id].status.Failed? ==> Spent(Queue.Next(q, st).0[id]))
  {
  }

  lemma RecoveryIsSpent(q: Queue.Table, st: Queue.Step, id: nat)
    requires id in q && !q[id].status.Failed? && st.Recover?
    ensures id in Queue.Next(q, st).0 && (Queue.Next(q, st).0[id].status.Failed? ==> Spent(Queue.Next(q, st).0[id]))
  {
  }

  lemma NewRowsKey(q: Queue.Table, st: Queue.Step, id: nat)
    requires id !in q && id in Queue.Next(q, st).0
    ensures (st.Create? && Queue.Next(q, st).0[id].key == st.job.key)
            || (st.CompleteAndEnqueue? && Queue.Next(q, st).0[id].key == st.successor.key)
  {
  }

  // A queue step on the chain's rows that enqueues none of them.
  predicate Keeping(prefix: string, q: Queue.Table, st: Queue.Step) {
    && (st.Create? ==> !OfChain(prefix, st.job.key))
    && (st.CompleteAndEnqueue? ==> !OfChain(prefix, st.successor.key))
    && (st.Fail? && ChainRow(prefix, q, st.id) ==> OwnFailure(st))
  }

  lemma StepKeepsRows(prefix: string, q: Queue.Table, st: Queue.Step)
    requires Queue.Sound(q) && FailedSpent(prefix, q) && Keeping(prefix, q, st)
    ensures RowsKept(prefix, q, Queue.Next(q, st).0)
  {
    var q' := Queue.Next(q, st).0;
    forall id | id in q ensures id in q' && RowKept(prefix, q[id], q'[id]) {
      KeyStays(q, st, id);
      if q[id].status.Succeeded? { SucceededStays(q, st, id); }
      if OfChain(prefix, q[id].key) { FailedRowKept(q, st, id); }
    }
    forall id | id in q' && id !in q ensures !OfChain(prefix, q'[id].key) { NewRowsKey(q, st, id); }
  }

  lemma KeptTableIsSound(prefix: string, q: Queue.Table, q': Queue.Table, items: seq<Item>)
    requires TableSound(prefix, q, items) && Queue.Sound(q') && RowsKept(prefix, q, q')
    ensures TableSound(prefix, q', items)
  {
    forall id | id in q' && OfChain(prefix, q'[id].key) ensures id in q && RowKept(prefix, q[id], q'[id]) {}
  }

  lemma KeptHandler(prefix: string, q: Queue.Table, q': Queue.Table, items: seq<Item>, h: Handler)
    requires HandlerSound(prefix, q, items, h) && h.id in q' && q'[h.id].key == q[h.id].key
    ensures HandlerSound(prefix, q', items, h)
  {
  }

  lemma QueueKeepsSound(s: State, st: Queue.Step, handlers: map<nat, Handler>)
    requires Sound(s) && Keeping(s.prefix, s.table, st)
    requires forall h | h in handlers :: HandlerSound(s.prefix, s.table, s.world.db.items, handlers[h])
    ensures Sound(s.(table := Queue.Next(s.table, st).0, handlers := handlers))
    ensures RowsKept(s.prefix, s.table, Queue.Next(s.table, st).0)
  {
    var q' := Queue.Next(s.table, st).0;
    Queue.NextKeepsSound(s.table, st);
    StepKeepsRows(s.prefix, s.table, st);
    KeptTableIsSound(s.prefix, s.table, q', s.world.db.items);
    forall h | h in handlers ensures HandlerSound(s.prefix, q', s.world.db.items, handlers[h]) {
      KeptHandler(s.prefix, s.table, q', s.world.db.items, handlers[h]);
    }
  }

  // What a handler returned with still holds when others have settled more.
  lemma PromiseLasts(before: seq<Item>, returned: seq<Item>, now: seq<Item>, left: nat)
    requires Service.ChainsOn(before, returned, left) && ItemsEvolve(returned, now) && Service.Clear(returned)
    ensures Service.ChainsOn(before, now, left)
  {
    Service.OpenOnlyShrinks(returned, now);
  }

  lemma TablesKeepSound(s: State, st: Step, handlers: map<nat, Handler>)
    requires Sound(s) && forall h | h in handlers :: h in s.handlers && handlers[h] == s.handlers[h]
    ensures Sound(s.(world := AnswerTables.Next(s.world, st), handlers := handlers))
    ensures Evolves(s.world.db, AnswerTables.Next(s.world, st).db)
  {
    AnswerInvariants.NextKeepsSound(s.world, st);
    var items, items' := s.world.db.items, AnswerTables.Next(s.world, st).db.items;
    Service.OpenOnlyShrinks(items, items');
    Service.ClearStays(items, items');
    forall h | h in handlers ensures HandlerSound(s.prefix, s.table, items', handlers[h]) {
      if handlers[h].Returned? { PromiseLasts(handlers[h].before, items, items', handlers[h].left); }
    }
  }

  // The successor of a job in hand has a smaller number than any job of the chain.
  lemma SuccessorIsNext(s: State, h: Handler)
    requires Sound(s) && HandlerSound(s.prefix, s.table, s.world.db.items, h) && h.Returned? && Queue.Owns(s.table, h.id, h.worker)
    ensures forall id | ChainRow(s.prefix, s.table, id) :: Precedes(s.prefix, s.table[id].key, Some(KeyOf(s.prefix, h.left)))
    ensures !Queue.KeyTaken(s.table, Some(KeyOf(s.prefix, h.left)))
  {
    var q, key := s.table, Some(KeyOf(s.prefix, h.left));
    var own := q[h.id];
    KeySaysLeft(s.prefix, h.left);
    forall id | ChainRow(s.prefix, q, id) ensures Precedes(s.prefix, q[id].key, key) {
      // Otherwise the job in hand would precede this one, and have succeeded.
      assert Precedes(s.prefix, own.key, q[id].key) ==> own.status.Succeeded?;
    }
  }

  // A job in hand is the last of the chain: every other has succeeded.
  lemma OthersSucceeded(prefix: string, q: Queue.Table, id: nat, i: nat)
    requires Queue.Sound(q) && Ordered(prefix, q) && ChainRow(prefix, q, id) && !q[id].status.Succeeded?
    requires ChainRow(prefix, q, i) && i != id
    ensures q[i].status.Succeeded?
  {
    if !Precedes(prefix, q[id].key, q[i].key) {
      assert q[i].key != q[id].key;
      KeySaysLeft(prefix, 0);
      assert Precedes(prefix, q[i].key, q[id].key);
    }
  }

  // With the successor in place, everything it follows has succeeded.
  lemma SuccessorJoins(s: State, h: Handler, newId: nat, now: int)
    requires Sound(s) && HandlerSound(s.prefix, s.table, s.world.db.items, h) && h.Returned? && Queue.Owns(s.table, h.id, h.worker)
    requires newId !in s.table
    ensures var q' := Queue.Next(s.table, Completion(s.prefix, h, newId, now)).0;
            && TableSound(s.prefix, q', s.world.db.items)
            && (forall id | id in s.table :: id in q' && q'[id].key == s.table[id].key)
            && newId in q' && q'[newId].key == Some(KeyOf(s.prefix, h.left)) && q'[newId].status.Queued?
  {
    var st := Completion(s.prefix, h, newId, now);
    var q, q' := s.table, Queue.Next(s.table, st).0;
    Queue.NextKeepsSound(q, st);
    SuccessorIsNext(s, h);
    KeySaysLeft(s.prefix, h.left);
    CompletionIsSuccession(s.prefix, q, h, newId, now);
    SuccessorInPlace(s.prefix, q, q', h.id, newId, h.left, s.world.db.items);
  }

  lemma CompletionIsSuccession(prefix: string, q: Queue.Table, h: Handler, newId: nat, now: int)
    requires Queue.Sound(q) && h.Returned? && Queue.Owns(q, h.id, h.worker) && newId !in q
    requires !Queue.KeyTaken(q, Some(KeyOf(prefix, h.left)))
    ensures Succession(q, Queue.Next(q, Completion(prefix, h, newId, now)).0, h.id, newId, Some(KeyOf(prefix, h.left)))
  {
    var done := q[h.id].(status := Queue.Succeeded, stage := "completed");
    var q1 := q[h.id := done];
    assert forall i | i in q1 :: q1[i].key == q[i].key;
    assert !Queue.KeyTaken(q1, Some(KeyOf(prefix, h.left)));
  }

  // The job in hand has succeeded, and its successor is there.
  predicate Succession(q: Queue.Table, q': Queue.Table, id: nat, newId: nat, key: Option<string>) {
    && id in q && !q[id].status.Succeeded? && newId !in q && q'.Keys == q.Keys + {newId}
    && q'[newId].key == key && q'[newId].status.Queued? && q'[id].key == q[id].key && q'[id].status.Succeeded?
    && forall i | i in q && i != id :: q'[i] == q[i]
  }

  lemma SuccessorInPlace(prefix: string, q: Queue.Table, q': Queue.Table, id: nat, newId: nat, left: nat, items: seq<Item>)
    requires TableSound(prefix, q, items) && Queue.Sound(q') && OfChain(prefix, Some(KeyOf(prefix, left)))
    requires Succession(q, q', id, newId, Some(KeyOf(prefix, left))) && ChainRow(prefix, q, id)
    requires LeftOf(prefix, Some(KeyOf(prefix, left))) == Some(left) && |Service.OpenSet(items)| <= left
    requires forall i | ChainRow(prefix, q, i) :: Precedes(prefix, q[i].key, Some(KeyOf(prefix, left)))
    ensures TableSound(prefix, q', items)
  {
    SuccessorOrdered(prefix, q, q', id, newId, left);
    forall i | i in q' ensures q'[i].key == (if i == newId then Some(KeyOf(prefix, left)) else q[i].key) {}
    assert KeysBound(prefix, q', items);
    forall i | ChainRow(prefix, q', i) && q'[i].status.Failed? ensures Spent(q'[i]) { assert i in q && q'[i] == q[i]; }
  }

  lemma SuccessorOrdered(prefix: string, q: Queue.Table, q': Queue.Table, id: nat, newId: nat, left: nat)
    requires Queue.Sound(q) && Ordered(prefix, q) && Succession(q, q', id, newId, Some(KeyOf(prefix, left))) && ChainRow(prefix, q, id)
    requires LeftOf(prefix, Some(KeyOf(prefix, left))) == Some(left)
    requires forall i | ChainRow(prefix, q, i) :: Precedes(prefix, q[i].key, Some(KeyOf(prefix, left)))
    ensures Ordered(prefix, q')
  {
    var key := Some(KeyOf(prefix, left));
    forall i, j | i in q' && j in q' && Precedes(prefix, q'[i].key, q'[j].key) ensures q'[i].status.Succeeded? {
      if i == newId {
        LastPrecedesNone(prefix, q, q'[j].key, key, j);
      } else if i != id {
        OthersSucceeded(prefix, q, id, i);
      }
    }
  }

  lemma LastPrecedesNone(prefix: string, q: Queue.Table, other: Option<string>, key: Option<string>, j: nat)
    requires forall i | ChainRow(prefix, q, i) :: Precedes(prefix, q[i].key, key)
    requires LeftOf(prefix, key).Some? && key != Some(prefix) && (other == key || (j in q && q[j].key == other))
    ensures !Precedes(prefix, key, other)
  {
    assert j in q && q[j].key == other && OfChain(prefix, other) ==> ChainRow(prefix, q, j);
  }

  lemma ChainingKeepsSound(s: State, h: Handler, handlers: map<nat, Handler>, newId: nat, now: int)
    requires Sound(s) && HandlerSound(s.prefix, s.table, s.world.db.items, h) && h.Returned? && newId !in s.table
    requires forall k | k in handlers :: HandlerSound(s.prefix, s.table, s.world.db.items, handlers[k])
    ensures Sound(s.(table := Queue.Next(s.table, Completion(s.prefix, h, newId, now)).0, handlers := handlers))
  {
    var q' := Queue.Next(s.table, Completion(s.prefix, h, newId, now)).0;
    if Queue.Owns(s.table, h.id, h.worker) {
      SuccessorJoins(s, h, newId, now);
      forall k | k in handlers ensures HandlerSound(s.prefix, q', s.world.db.items, handlers[k]) {
        KeptHandler(s.prefix, s.table, q', s.world.db.items, handlers[k]);
      }
    } else {
      assert q' == s.table;
    }
  }

  lemma CompletingKeepsSound(s: State, handler: nat, newId: nat, now: int)
    requires Sound(s) && handler in s.handlers && newId !in s.table
    requires s.handlers[handler].Returned? || s.handlers[handler].Done?
    ensures Sound(Completed(s, handler, newId, now))
  {
    var h, s' := s.handlers[handler], Completed(s, handler, newId, now);
    forall k | k in s'.handlers ensures HandlerSound(s.prefix, s.table, s.world.db.items, s'.handlers[k]) {
      assert HandlerSound(s.prefix, s.table, s.world.db.items, h);
    }
    if h.Returned? {
      ChainingKeepsSound(s, h, s'.handlers, newId, now);
    } else {
      QueueKeepsSound(s, Queue.Complete(h.id, h.worker), s'.handlers);
    }
  }

  predicate OnTable(m: Move) {
    m.OnQueue? || m.LeaseRun? || m.FailRun?
  }

  lemma TableMoveKeepsSound(s: State, m: Move)
    requires Sound(s) && OnTable(m)
    ensures Sound(Next(s, m))
  {
    match m
    case OnQueue(st) => if Foreign(s.prefix, s.table, st) { QueueKeepsSound(s, st, s.handlers); }
    case LeaseRun(_, _, _, _, _) => LeaseKeepsSound(s, m);
    case FailRun(_, _, _, _) => FailureKeepsSound(s, m);
  }

  lemma TableMoveKeepsRows(s: State, m: Move)
    requires Sound(s) && OnTable(m)
    ensures RowsKept(s.prefix, s.table, Next(s, m).table) && Next(s, m).prefix == s.prefix
  {
    SameRowsKept(s.prefix, s.table);
    match m
    case OnQueue(st) => if Foreign(s.prefix, s.table, st) { StepKeepsRows(s.prefix, s.table, st); }
    case LeaseRun(_, id, worker, types, now) => StepKeepsRows(s.prefix, s.table, Queue.Lease(id, worker, types, now));
    case FailRun(h, code, message, now) =>
      if h in s.handlers { StepKeepsRows(s.prefix, s.table, FailureOf(s.handlers[h], code, message, now)); }
  }

  lemma SameRowsKept(prefix: string, q: Queue.Table)
    requires FailedSpent(prefix, q)
    ensures RowsKept(prefix, q, q)
  {
  }

  lemma LeaseKeepsSound(s: State, m: Move)
    requires Sound(s) && m.LeaseRun?
    ensures Sound(Next(s, m))
  {
    if Next(s, m) != s {
      var h := Leased(m.id, m.worker);
      QueueKeepsSound(s, Queue.Lease(m.id, m.worker, m.types, m.now), s.handlers[m.handler := h]);
    }
  }

  lemma FailureKeepsSound(s: State, m: Move)
    requires Sound(s) && m.FailRun?
    ensures Sound(Next(s, m))
  {
    if m.handler in s.handlers && s.handlers[m.handler].Raised? {
      var h := s.handlers[m.handler];
      assert HandlerSound(s.prefix, s.table, s.world.db.items, h);
      FailingKeepsSound(s, m.handler, h, m.code, m.message, m.now);
    }
  }

  lemma FailingKeepsSound(s: State, handler: nat, h: Handler, code: string, message: string, now: int)
    requires Sound(s) && HandlerSound(s.prefix, s.table, s.world.db.items, h)
    ensures Sound(s.(table := Queue.Next(s.table, FailureOf(h, code, message, now)).0,
                     handlers := s.handlers[handler := Failing(h.id, h.worker)]))
  {
    QueueKeepsSound(s, FailureOf(h, code, message, now), s.handlers[handler := Failing(h.id, h.worker)]);
  }

  predicate OfWorker(m: Move) {
    m.BeginRun? || m.ReturnChained? || m.ReturnDone? || m.RaiseRun? || m.StopRun?
  }

  lemma HandlerMoves(s: State, handler: nat, h: Handler)
    requires Sound(s) && HandlerSound(s.prefix, s.table, s.world.db.items, h)
    ensures Sound(s.(handlers := s.handlers[handler := h]))
  {
  }

  // A move that only moves one worker on.
  lemma WorkerMoveIs(s: State, m: Move)
    requires OfWorker(m)
    ensures Next(s, m) == s.(handlers := Next(s, m).handlers)
  {
  }

  lemma WorkerMoveKeepsSound(s: State, m: Move)
    requires Sound(s) && OfWorker(m)
    ensures Sound(Next(s, m))
  {
    if m.StopRun? { FewerHandlersSound(s, m.handler); } else { GoingOnKeepsSound(s, m); }
  }

  lemma GoingOnKeepsSound(s: State, m: Move)
    requires Sound(s) && OfWorker(m) && !m.StopRun?
    ensures Sound(Next(s, m))
  {
    if m.handler in s.handlers {
      var h := s.handlers[m.handler];
      assert HandlerSound(s.prefix, s.table, s.world.db.items, h);
      match m
      case BeginRun(_) => BeginningKeepsSound(s, m.handler);
      case ReturnChained(_, left) => if Next(s, m) != s { HandlerMoves(s, m.handler, Returned(h.id, h.worker, h.before, left)); }
      case ReturnDone(_) => HandlerMoves(s, m.handler, Done(h.id, h.worker));
      case RaiseRun(_) => HandlerMoves(s, m.handler, Raised(h.id, h.worker));
    }
  }

  lemma FewerHandlersSound(s: State, handler: nat)
    requires Sound(s)
    ensures Sound(s.(handlers := s.handlers - {handler}))
  {
  }

  lemma BeginningKeepsSound(s: State, handler: nat)
    requires Sound(s) && handler in s.handlers
    ensures Sound(Next(s, BeginRun(handler)))
  {
    var h := s.handlers[handler];
    assert HandlerSound(s.prefix, s.table, s.world.db.items, h);
    HandlerMoves(s, handler, Begun(s, h));
  }

  lemma NextKeepsSound(s: State, m: Move)
    requires Sound(s)
    ensures Sound(Next(s, m))
  {
    if OnTable(m) {
      TableMoveKeepsSound(s, m);
    } else if OfWorker(m) {
      WorkerMoveKeepsSound(s, m);
    } else if m.CompleteRun? {
      if Next(s, m) != s { CompletingKeepsSound(s, m.handler, m.newId, m.now); }
    } else {
      WorldMoveKeepsSound(s, m);
    }
  }

  lemma WorldMoveKeepsSound(s: State, m: Move)
    requires Sound(s) && (m.OnPaperTables? || m.MarkRun?)
    ensures Sound(Next(s, m)) && Next(s, m).table == s.table && Evolves(s.world.db, Next(s, m).world.db)
  {
    SameDbEvolves(s.world.db);
    match m
    case OnPaperTables(st) => if Allowed(s, st.action) { TablesKeepSound(s, st, s.handlers); }
    case MarkRun(h) =>
      if Marks(s, h) {
        TablesKeepSound(s, Step(h, FailRest), s.handlers - {h});
      } else {
        FewerHandlersSound(s, h);
      }
  }

  lemma SameDbEvolves(db: AnswerTables.Db)
    ensures Evolves(db, db)
  {
  }

  /******* The successor *******/

  // A completion that returned with a successor takes effect, but the successor's key is taken.
  predicate LosesSuccessor(s: State, m: Move) {
    && m.CompleteRun? && m.handler in s.handlers && s.handlers[m.handler].Returned?
    && var h := s.handlers[m.handler];
    && Queue.Owns(s.table, h.id, h.worker) && Queue.KeyTaken(s.table, Some(KeyOf(s.prefix, h.left)))
  }

  predicate EverLosesSuccessor(s: State, moves: seq<Move>)
    decreases moves
  {
    moves != [] && (LosesSuccessor(s, moves[0]) || EverLosesSuccessor(Next(s, moves[0]), moves[1..]))
  }

  /** Whatever is retried, delivered twice, recovered or taken over, no run of the queue and the
      workers ever has a chained completion that finds its successor's key taken... */
  lemma {:induction false} SuccessorsAreNeverLost(s: State, moves: seq<Move>)
    requires Sound(s)
    ensures Sound(Run(s, moves)) && !EverLosesSuccessor(s, moves)
    decreases moves
  {
    if moves != [] {
      var m := moves[0];
      NextKeepsSound(s, m);
      if LosesSuccessor(s, m) { SuccessorIsNext(s, s.handlers[m.handler]); }
      SuccessorsAreNeverLost(Next(s, m), moves[1..]);
    }
  }

  // The worker is about to complete, with a successor under a new id.
  predicate MayChain(s: State, m: Move) {
    m.CompleteRun? && m.handler in s.handlers && s.handlers[m.handler].Returned? && m.newId !in s.table
  }

  /** ...so a chained completion inserts its successor, and succeeds, exactly when it still holds the
      lease; otherwise the worker is left with an error and the table as it was... */
  lemma ChainGoesOnExactly(s: State, moves: seq<Move>, m: Move)
    requires Starting(s) && MayChain(Run(s, moves), m)
    ensures var s', h := Run(s, moves), Run(s, moves).handlers[m.handler];
            var s'' := Next(s', m);
            && (m.newId in s''.table <==> Queue.Owns(s'.table, h.id, h.worker))
            && (m.newId in s''.table ==> s''.table[m.newId].key == Some(KeyOf(s.prefix, h.left)) && s''.table[m.newId].status.Queued?
                                         && h.id in s''.table && s''.table[h.id].status.Succeeded?)
            && (m.newId !in s''.table ==> s''.table == s'.table && s''.handlers[m.handler] == Raised(h.id, h.worker))
  {
    StartingIsSound(s);
    SuccessorsAreNeverLost(s, moves);
    PrefixStays(s, moves);
    ChainMoveExactly(Run(s, moves), m);
  }

  lemma ChainMoveExactly(s: State, m: Move)
    requires Sound(s) && MayChain(s, m)
    ensures var h, s' := s.handlers[m.handler], Next(s, m);
            && (m.newId in s'.table <==> Queue.Owns(s.table, h.id, h.worker))
            && (m.newId in s'.table ==> s'.table[m.newId].key == Some(KeyOf(s.prefix, h.left)) && s'.table[m.newId].status.Queued?
                                        && h.id in s'.table && s'.table[h.id].status.Succeeded?)
            && (m.newId !in s'.table ==> s'.table == s.table && s'.handlers[m.handler] == Raised(h.id, h.worker))
  {
    var h := s.handlers[m.handler];
    if Queue.Owns(s.table, h.id, h.worker) { SuccessorIsNext(s, h); }
    Queue.CompletionCarriesItsSuccessor(s.table, h.id, h.worker, Successor(s.prefix, h.left), m.newId, m.now);
  }

  lemma {:induction false} PrefixStays(s: State, moves: seq<Move>)
    ensures Run(s, moves).prefix == s.prefix && Run(s, moves).epoch == s.epoch
    decreases moves
  {
    if moves != [] { PrefixStays(Next(s, moves[0]), moves[1..]); }
  }

  predicate Unfinished(prefix: string, q: Queue.Table, id: nat) {
    ChainRow(prefix, q, id) && !q[id].status.Succeeded?
  }

  lemma OneUnfinished(prefix: string, q: Queue.Table, i: nat, j: nat)
    requires Queue.Sound(q) && Ordered(prefix, q) && Unfinished(prefix, q, i) && Unfinished(prefix, q, j)
    ensures i == j
  {
    if i != j { OthersSucceeded(prefix, q, i, j); }
  }

  /** ...and at every point at most one job of the chain has not succeeded. */
  lemma OneJobAtATime(s: State, moves: seq<Move>, i: nat, j: nat)
    requires Starting(s)
    ensures Unfinished(s.prefix, Run(s, moves).table, i) && Unfinished(s.prefix, Run(s, moves).table, j) ==> i == j
  {
    StartingIsSound(s);
    SuccessorsAreNeverLost(s, moves);
    PrefixStays(s, moves);
    if Unfinished(s.prefix, Run(s, moves).table, i) && Unfinished(s.prefix, Run(s, moves).table, j) {
      OneUnfinished(s.prefix, Run(s, moves).table, i, j);
    }
  }
}
