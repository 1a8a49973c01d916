/** How the chain of answer jobs ends: when a paper is left in answering with no job to go on. */
module AnswerChain {
  import opened Wrappers
  import opened AnswerQueue
  import AnswerInvariants
  import Paper = PaperExtraction
  import Queue = JobQueue
  import Runs = AnswerRuns
  import Tables = AnswerTables

  predicate Answering(s: State) {
    s.world.db.paper.workflow.InAnswering?
  }

  predicate HasUnfinished(s: State) {
    exists id | id in s.table :: Unfinished(s.prefix, s.table, id)
  }

  // Right after start_for_job: the paper is in answering under the chain's epoch, and the first job
  // is queued.
  predicate Started(s: State) {
    Starting(s) && s.world.db.epoch == s.epoch && HasUnfinished(s)
  }

  // While nothing overrides the paper's status, it is in answering under this epoch or it has
  // ended; in answering a job of the chain is unfinished, and none is about to complete without a
  // successor.
  predicate OnCourse(s: State) {
    && (Answering(s) || Tables.Ended(s.world.db.paper.workflow))
    && (Answering(s) ==> s.world.db.epoch == s.epoch && HasUnfinished(s))
    && (Answering(s) ==> forall h | h in s.handlers :: !s.handlers[h].Done?)
  }

  predicate Tracked(s: State) {
    Sound(s) && (!s.world.db.overridden ==> OnCourse(s))
  }

  lemma PrefixKept(s: State, m: Move)
    ensures Next(s, m).prefix == s.prefix
  {
  }

  lemma UnfinishedStays(prefix: string, q: Queue.Table, st: Queue.Step, id: nat)
    requires Queue.Sound(q) && Unfinished(prefix, q, id) && !Queue.Completes(q, st, id)
    ensures Unfinished(prefix, Queue.Next(q, st).0, id)
  {
    Queue.StepSucceedsExactly(q, st, id);
    KeyStays(q, st, id);
  }

  lemma TableMoveKeepsUnfinished(s: State, m: Move)
    requires Sound(s) && OnTable(m) && HasUnfinished(s)
    ensures HasUnfinished(Next(s, m))
  {
    var id :| id in s.table && Unfinished(s.prefix, s.table, id);
    TableMoveKeepsOneUnfinished(s, m, id);
    PrefixKept(s, m);
  }

  // The queue's statement of such a move completes no job of the chain.
  lemma TableMoveIs(s: State, m: Move, id: nat) returns (st: Queue.Step)
    requires OnTable(m) && ChainRow(s.prefix, s.table, id)
    ensures Next(s, m).table == s.table || Next(s, m).table == Queue.Next(s.table, st).0
    ensures !Queue.Completes(s.table, st, id)
  {
    match m
    case OnQueue(statement) => st := if Foreign(s.prefix, s.table, statement) then statement else Queue.Recover(0, 0);
    case LeaseRun(_, i, worker, types, now) => st := Queue.Lease(i, worker, types, now);
    case FailRun(h, code, message, now) =>
      st := if h in s.handlers then FailureOf(s.handlers[h], code, message, now) else Queue.Recover(0, 0);
  }

  lemma TableMoveKeepsOneUnfinished(s: State, m: Move, id: nat)
    requires Sound(s) && OnTable(m) && Unfinished(s.prefix, s.table, id)
    ensures Unfinished(s.prefix, Next(s, m).table, id)
  {
    var st := TableMoveIs(s, m, id);
    UnfinishedStays(s.prefix, s.table, st, id);
  }

  lemma ChainingKeepsUnfinished(s: State, handler: nat, newId: nat, now: int)
    requires Sound(s) && MayChain(s, CompleteRun(handler, newId, now)) && HasUnfinished(s)
    ensures HasUnfinished(Next(s, CompleteRun(handler, newId, now)))
  {
    var m := CompleteRun(handler, newId, now);
    ChainMoveExactly(s, m);
    if newId in Next(s, m).table {
      KeySaysLeft(s.prefix, s.handlers[handler].left);
      assert Unfinished(s.prefix, Next(s, m).table, newId);
    }
  }

  lemma TableMoveOnCourse(s: State, m: Move)
    requires Sound(s) && OnCourse(s) && OnTable(m)
    ensures OnCourse(Next(s, m))
  {
    if Answering(s) { TableMoveKeepsUnfinished(s, m); }
  }

  lemma WorkerMoveOnCourse(s: State, m: Move)
    requires Sound(s) && OnCourse(s) && OfWorker(m) && !s.world.db.overridden
    ensures OnCourse(Next(s, m))
  {
    if Answering(s) { NoneDone(s, m); }
    WorkerMoveIs(s, m);
    HandlersOnCourse(s, Next(s, m).handlers);
  }

  // A worker that finds the paper in answering begins, and is done only when it is not.
  lemma NoneDone(s: State, m: Move)
    requires OnCourse(s) && OfWorker(m) && !s.world.db.overridden && Answering(s)
    ensures forall h | h in Next(s, m).handlers :: !Next(s, m).handlers[h].Done?
  {
  }

  lemma HandlersOnCourse(s: State, handlers: map<nat, Handler>)
    requires OnCourse(s) && (Answering(s) ==> forall h | h in handlers :: !handlers[h].Done?)
    ensures OnCourse(s.(handlers := handlers))
  {
    if Answering(s) {
      var id :| id in s.table && Unfinished(s.prefix, s.table, id);
      assert HasUnfinished(s.(handlers := handlers));
    }
  }

  lemma CompletingOnCourse(s: State, m: Move)
    requires Sound(s) && OnCourse(s) && m.CompleteRun?
    ensures OnCourse(Next(s, m))
  {
    if Answering(s) && MayChain(s, m) { ChainingKeepsUnfinished(s, m.handler, m.newId, m.now); }
  }

  // Others may move the paper on: it stays in answering under its epoch, or ends.
  lemma WorldOnCourse(s: State, s': State)
    requires OnCourse(s) && !s'.world.db.overridden && Tables.Evolves(s.world.db, s'.world.db)
    requires s'.table == s.table && s'.prefix == s.prefix && s'.epoch == s.epoch
    requires forall h | h in s'.handlers :: h in s.handlers && s'.handlers[h] == s.handlers[h]
    ensures OnCourse(s')
  {
    if Answering(s') {
      var id :| id in s.table && Unfinished(s.prefix, s.table, id);
      assert Unfinished(s'.prefix, s'.table, id);
    }
  }

  lemma NextKeepsTracked(s: State, m: Move)
    requires Tracked(s)
    ensures Tracked(Next(s, m))
  {
    NextKeepsSound(s, m);
    if OnTable(m) {
      if !s.world.db.overridden { TableMoveOnCourse(s, m); }
    } else if OfWorker(m) {
      if !s.world.db.overridden { WorkerMoveOnCourse(s, m); }
    } else if m.CompleteRun? {
      if !s.world.db.overridden { CompletingOnCourse(s, m); }
    } else {
      WorldMoveKeepsSound(s, m);
      if !Next(s, m).world.db.overridden { WorldOnCourse(s, Next(s, m)); }
    }
  }

  lemma {:induction false} RunKeepsTracked(s: State, moves: seq<Move>)
    requires Tracked(s)
    ensures Tracked(Run(s, moves))
    decreases moves
  {
    if moves != [] {
      NextKeepsTracked(s, moves[0]);
      RunKeepsTracked(Next(s, moves[0]), moves[1..]);
    }
  }

  lemma StartedIsTracked(s: State)
    requires Started(s)
    ensures Tracked(s)
  {
    StartingIsSound(s);
  }

  /******* How a job of the chain fails *******/

  predicate FailedRow(prefix: string, q: Queue.Table, id: nat) {
    ChainRow(prefix, q, id) && q[id].status.Failed?
  }

  predicate AnyFailed(s: State) {
    exists id | id in s.table :: FailedRow(s.prefix, s.table, id)
  }

  // Every job of the chain has succeeded or failed: none is queued, waiting or in hand.
  predicate Orphaned(s: State) {
    forall id | id in s.table && OfChain(s.prefix, s.table[id].key) :: s.table[id].status.Succeeded? || s.table[id].status.Failed?
  }

  // The recovery finds a job of the chain with a stale heartbeat and its attempts used up.
  predicate Expires(s: State, m: Move) {
    && m.OnQueue? && m.statement.Recover?
    && exists id | id in s.table :: ExpiresRow(s.prefix, s.table, id, m.statement.threshold, m.statement.now)
  }

  predicate ExpiresRow(prefix: string, q: Queue.Table, id: nat, threshold: int, now: int) {
    ChainRow(prefix, q, id) && Queue.Stale(q[id], threshold, now) && Spent(q[id])
  }

  // A worker's fail_job is allowed to write and finds the attempts used up.
  predicate FailsOut(s: State, m: Move) {
    && m.FailRun? && m.handler in s.handlers && s.handlers[m.handler].Raised?
    && FailsRow(s.table, s.handlers[m.handler])
  }

  predicate FailsRow(q: Queue.Table, h: Handler) {
    h.id in q && (q[h.id].lockedBy.None? || Queue.Owns(q, h.id, h.worker)) && Spent(q[h.id])
  }

  lemma ForeignFailsExactly(prefix: string, q: Queue.Table, st: Queue.Step, id: nat)
    requires Queue.Sound(q) && Foreign(prefix, q, st) && ChainRow(prefix, q, id) && !q[id].status.Failed?
    ensures id in Queue.Next(q, st).0
    ensures Queue.Next(q, st).0[id].status.Failed? <==> st.Recover? && ExpiresRow(prefix, q, id, st.threshold, st.now)
  {
  }

  lemma LeaseFailsNone(q: Queue.Table, st: Queue.Step, id: nat)
    requires id in q && !q[id].status.Failed? && (st.Lease? || st.Complete? || st.CompleteAndEnqueue?)
    ensures id in Queue.Next(q, st).0 && !Queue.Next(q, st).0[id].status.Failed?
  {
  }

  lemma FailureFailsExactly(q: Queue.Table, h: Handler, code: string, message: string, now: int, id: nat)
    requires Queue.Sound(q) && id in q && h.id in q && !q[id].status.Failed?
    ensures var q' := Queue.Next(q, FailureOf(h, code, message, now)).0;
            id in q' && (q'[id].status.Failed? <==> id == h.id && FailsRow(q, h))
  {
  }

  // A row of the chain is failed after the move exactly when it was, or the move fails it.
  predicate FailsBy(s: State, m: Move, id: nat) {
    match m
    case OnQueue(st) => st.Recover? && ExpiresRow(s.prefix, s.table, id, st.threshold, st.now)
    case FailRun(h, _, _, _) => FailsOut(s, m) && s.handlers[h].id == id
    case _ => false
  }

  lemma RowFailsExactly(s: State, m: Move, id: nat)
    requires Sound(s) && ChainRow(s.prefix, s.table, id) && !s.table[id].status.Failed?
    ensures id in Next(s, m).table && (Next(s, m).table[id].status.Failed? <==> FailsBy(s, m, id))
  {
    match m
    case OnQueue(st) => if Foreign(s.prefix, s.table, st) { ForeignFailsExactly(s.prefix, s.table, st, id); }
    case FailRun(h, code, message, now) =>
      if h in s.handlers {
        assert HandlerSound(s.prefix, s.table, s.world.db.items, s.handlers[h]);
        FailureFailsExactly(s.table, s.handlers[h], code, message, now, id);
      }
    case _ => RowStaysUnfailed(s, m, id);
  }

  lemma RowStaysUnfailed(s: State, m: Move, id: nat)
    requires id in s.table && !s.table[id].status.Failed? && !m.OnQueue? && !m.FailRun?
    ensures id in Next(s, m).table && !Next(s, m).table[id].status.Failed?
  {
    match m
    case LeaseRun(_, i, worker, types, now) => LeaseFailsNone(s.table, Queue.Lease(i, worker, types, now), id);
    case CompleteRun(h, newId, now) => if h in s.handlers { LeaseFailsNone(s.table, Completion(s.prefix, s.handlers[h], newId, now), id); }
    case _ =>
  }

  lemma FailedStays(s: State, m: Move, id: nat)
    requires Sound(s) && FailedRow(s.prefix, s.table, id)
    ensures FailedRow(Next(s, m).prefix, Next(s, m).table, id)
  {
    if OnTable(m) {
      TableMoveKeepsRows(s, m);
    } else if m.CompleteRun? {
      if m.handler in s.handlers { FailedStaysCompleting(s.table, Completion(s.prefix, s.handlers[m.handler], m.newId, m.now), id); }
    }
  }

  lemma FailedStaysCompleting(q: Queue.Table, st: Queue.Step, id: nat)
    requires id in q && q[id].status.Failed? && (st.Complete? || st.CompleteAndEnqueue?)
    ensures id in Queue.Next(q, st).0 && Queue.Next(q, st).0[id] == q[id]
  {
  }

  lemma NewRowsUnfailed(s: State, m: Move, id: nat)
    requires Sound(s) && ChainRow(s.prefix, Next(s, m).table, id) && id !in s.table
    ensures !Next(s, m).table[id].status.Failed?
  {
    if OnTable(m) {
      TableMoveKeepsRows(s, m);
    } else if m.CompleteRun? {
      if m.handler in s.handlers { NewRowsQueued(s.table, Completion(s.prefix, s.handlers[m.handler], m.newId, m.now), id); }
    }
  }

  lemma NewRowsQueued(q: Queue.Table, st: Queue.Step, id: nat)
    requires id !in q && id in Queue.Next(q, st).0
    ensures Queue.Next(q, st).0[id].status.Queued?
  {
    Queue.SuccessorsComeFromSuccess(q, st, id);
  }

  /** A job of the chain fails in two ways only: the recovery finds it stale, or a worker fails it,
      with its attempts used up. */
  lemma AnyFailedExactly(s: State, m: Move)
    requires Sound(s)
    ensures AnyFailed(Next(s, m)) <==> AnyFailed(s) || Expires(s, m) || FailsOut(s, m)
  {
    var s' := Next(s, m);
    if AnyFailed(s) {
      var id :| id in s.table && FailedRow(s.prefix, s.table, id);
      FailedStays(s, m, id);
    } else if Expires(s, m) {
      var id :| id in s.table && ExpiresRow(s.prefix, s.table, id, m.statement.threshold, m.statement.now);
      RowFailsExactly(s, m, id);
      MoveKeepsRow(s, m, id);
      assert FailedRow(s'.prefix, s'.table, id);
    } else if FailsOut(s, m) {
      var id := s.handlers[m.handler].id;
      assert HandlerSound(s.prefix, s.table, s.world.db.items, s.handlers[m.handler]);
      assert !FailedRow(s.prefix, s.table, id);
      RowFailsExactly(s, m, id);
      MoveKeepsRow(s, m, id);
      assert FailedRow(s'.prefix, s'.table, id);
    } else {
      PrefixKept(s, m);
      forall id | id in s'.table ensures !FailedRow(s'.prefix, s'.table, id) { NothingFails(s, m, id); }
    }
  }

  lemma MoveKeepsRow(s: State, m: Move, id: nat)
    requires ChainRow(s.prefix, s.table, id) && OnTable(m)
    ensures ChainRow(Next(s, m).prefix, Next(s, m).table, id)
  {
    KeyKept(s, m, id);
  }

  lemma NothingFails(s: State, m: Move, id: nat)
    requires Sound(s) && !AnyFailed(s) && !Expires(s, m) && !FailsOut(s, m) && id in Next(s, m).table
    ensures !FailedRow(s.prefix, Next(s, m).table, id)
  {
    if ChainRow(s.prefix, Next(s, m).table, id) {
      if id in s.table {
        KeyKept(s, m, id);
        NotFailedBy(s, m, id);
        RowFailsExactly(s, m, id);
      } else {
        NewRowsUnfailed(s, m, id);
      }
    }
  }

  lemma NotFailedBy(s: State, m: Move, id: nat)
    requires !AnyFailed(s) && !Expires(s, m) && !FailsOut(s, m) && ChainRow(s.prefix, s.table, id)
    ensures !s.table[id].status.Failed? && !FailsBy(s, m, id)
  {
    assert !FailedRow(s.prefix, s.table, id);
  }

  lemma KeyKept(s: State, m: Move, id: nat)
    requires id in s.table
    ensures id in Next(s, m).table && Next(s, m).table[id].key == s.table[id].key
  {
    match m
    case OnQueue(st) => KeyStays(s.table, st, id);
    case LeaseRun(_, i, worker, types, now) => KeyStays(s.table, Queue.Lease(i, worker, types, now), id);
    case CompleteRun(h, newId, now) => if h in s.handlers { KeyStays(s.table, Completion(s.prefix, s.handlers[h], newId, now), id); }
    case FailRun(h, code, message, now) => if h in s.handlers { KeyStays(s.table, FailureOf(s.handlers[h], code, message, now), id); }
    case _ =>
  }

  /** While the paper is in answering and nothing overrode its status, its chain has no job to go on
      exactly when one of its jobs has failed. */
  lemma OrphanedExactly(s: State)
    requires Tracked(s) && !s.world.db.overridden && Answering(s)
    ensures Orphaned(s) <==> AnyFailed(s)
  {
    if AnyFailed(s) {
      var i :| i in s.table && FailedRow(s.prefix, s.table, i);
      forall j | j in s.table && OfChain(s.prefix, s.table[j].key)
        ensures s.table[j].status.Succeeded? || s.table[j].status.Failed?
      {
        if !s.table[j].status.Succeeded? { OneUnfinished(s.prefix, s.table, i, j); }
      }
    } else {
      var i :| i in s.table && Unfinished(s.prefix, s.table, i);
      assert !FailedRow(s.prefix, s.table, i);
    }
  }

  /******* When a paper is left *******/

  predicate EverFails(s: State, moves: seq<Move>)
    decreases moves
  {
    moves != [] && (Expires(s, moves[0]) || FailsOut(s, moves[0]) || EverFails(Next(s, moves[0]), moves[1..]))
  }

  // The worker gets to mark_queue_failure.
  predicate EverMarks(s: State, moves: seq<Move>, handler: nat)
    decreases moves
  {
    moves != [] && ((moves[0] == MarkRun(handler) && Marks(s, handler)) || EverMarks(Next(s, moves[0]), moves[1..], handler))
  }

  // Either the recovery fails a job of the chain, which nobody marks, or a worker does and does not
  // get to mark it.
  predicate Leaves(s: State, moves: seq<Move>)
    decreases moves
  {
    moves != [] && (Expires(s, moves[0])
                    || (FailsOut(s, moves[0]) && !EverMarks(Next(s, moves[0]), moves[1..], moves[0].handler))
                    || Leaves(Next(s, moves[0]), moves[1..]))
  }

  lemma {:induction false} AnyFailedOver(s: State, moves: seq<Move>)
    requires Sound(s)
    ensures AnyFailed(Run(s, moves)) <==> AnyFailed(s) || EverFails(s, moves)
    decreases moves
  {
    if moves != [] {
      NextKeepsSound(s, moves[0]);
      AnyFailedExactly(s, moves[0]);
      AnyFailedOver(Next(s, moves[0]), moves[1..]);
    }
  }

  lemma {:induction false} RunEvolves(s: State, moves: seq<Move>)
    requires Sound(s)
    ensures Sound(Run(s, moves)) && Tables.Evolves(s.world.db, Run(s, moves).world.db)
    decreases moves
  {
    if moves != [] {
      NextKeepsSound(s, moves[0]);
      NextEvolves(s, moves[0]);
      RunEvolves(Next(s, moves[0]), moves[1..]);
      AnswerInvariants.EvolvesTransitively(s.world.db, Next(s, moves[0]).world.db, Run(s, moves).world.db);
    }
  }

  lemma NextEvolves(s: State, m: Move)
    requires Sound(s)
    ensures Tables.Evolves(s.world.db, Next(s, m).world.db)
  {
    if m.OnPaperTables? || m.MarkRun? {
      WorldMoveKeepsSound(s, m);
    } else {
      WorldStays(s, m);
      SameDbEvolves(s.world.db);
    }
  }

  lemma WorldStays(s: State, m: Move)
    requires !m.OnPaperTables? && !m.MarkRun?
    ensures Next(s, m).world == s.world
  {
  }

  lemma FailRestEnds(db: Tables.Db, me: Tables.Local)
    requires Tables.DbSound(db)
    ensures !Tables.Act(db, me, Tables.FailRest).0.paper.workflow.InAnswering?
  {
    if db.paper.workflow.InAnswering? { AnswerInvariants.FailRestKeepsSound(db); }
  }

  // A worker that gets to mark_queue_failure ends the answering.
  lemma MarkingEnds(s: State, handler: nat)
    requires Sound(s) && Marks(s, handler)
    ensures !Answering(Next(s, MarkRun(handler)))
  {
    FailRestEnds(s.world.db, Tables.LocalOf(s.world, handler));
  }

  // So there was none while the paper is still in answering.
  lemma {:induction false} NoneMarked(s: State, moves: seq<Move>, handler: nat)
    requires Tracked(s) && !Run(s, moves).world.db.overridden && Answering(Run(s, moves))
    ensures !EverMarks(s, moves, handler)
    decreases moves
  {
    if moves != [] {
      var s' := Next(s, moves[0]);
      NextKeepsTracked(s, moves[0]);
      RunEvolves(s', moves[1..]);
      if moves[0] == MarkRun(handler) && Marks(s, handler) { MarkingEnds(s, handler); }
      NoneMarked(s', moves[1..], handler);
    }
  }

  lemma {:induction false} FailsAreLeft(s: State, moves: seq<Move>)
    requires Tracked(s) && !Run(s, moves).world.db.overridden && Answering(Run(s, moves))
    ensures EverFails(s, moves) <==> Leaves(s, moves)
    decreases moves
  {
    if moves != [] {
      NextKeepsTracked(s, moves[0]);
      FailsAreLeft(Next(s, moves[0]), moves[1..]);
      if FailsOut(s, moves[0]) { NoneMarked(Next(s, moves[0]), moves[1..], moves[0].handler); }
    }
  }

  /** From start_for_job on, over every run in which nothing overrides the paper's status: the paper
      is left in answering with no job to go on exactly when it is still in answering and the
      recovery has failed a job of its chain, stale and with its attempts used up, or a worker has
      and did not get to mark the queue failure. */
  lemma LeftInAnsweringExactly(s: State, moves: seq<Move>)
    requires Started(s) && !Run(s, moves).world.db.overridden
    ensures Answering(Run(s, moves)) && Orphaned(Run(s, moves)) <==> Answering(Run(s, moves)) && Leaves(s, moves)
  {
    StartedIsTracked(s);
    RunKeepsTracked(s, moves);
    if Answering(Run(s, moves)) {
      OrphanedExactly(Run(s, moves));
      AnyFailedOver(s, moves);
      NoneFailedYet(s);
      FailsAreLeft(s, moves);
    }
  }

  lemma NoneFailedYet(s: State)
    requires Starting(s)
    ensures !AnyFailed(s)
  {
  }

  /******* ...it is left for good *******/

  // No job of the chain can go on and no worker is left with one.
  predicate Abandoned(s: State) {
    Orphaned(s) && s.handlers == map[]
  }

  // What the others do to a paper that is in answering or has ended.
  lemma OthersLeaveItems(db: Tables.Db, me: Tables.Local, a: Tables.Action)
    requires a.OnPaper? || a.Extract? || a.CorrectItem? || a.Start? || a.ApproveAnswer?
    requires db.paper.workflow.InAnswering? || Tables.Ended(db.paper.workflow)
    ensures var db' := Tables.Act(db, me, a).0;
            && db'.items == db.items
            && (!db'.overridden && Tables.AnyOpen(db.items) && db.paper.workflow.InAnswering? ==> db'.paper.workflow.InAnswering?)
  {
  }

  lemma KeptRowsStayOrphaned(s: State, s': State)
    requires Orphaned(s) && RowsKept(s.prefix, s.table, s'.table) && s'.prefix == s.prefix
    ensures Orphaned(s')
  {
    forall id | id in s'.table && OfChain(s'.prefix, s'.table[id].key)
      ensures s'.table[id].status.Succeeded? || s'.table[id].status.Failed?
    {
      assert id in s.table && RowKept(s.prefix, s.table[id], s'.table[id]);
    }
  }

  lemma TableMoveKeepsOrphaned(s: State, m: Move)
    requires Sound(s) && OnTable(m) && Orphaned(s)
    ensures Orphaned(Next(s, m))
  {
    TableMoveKeepsRows(s, m);
    KeptRowsStayOrphaned(s, Next(s, m));
  }

  lemma NextKeepsAbandoned(s: State, m: Move)
    requires Tracked(s) && Abandoned(s) && !Next(s, m).world.db.overridden
    ensures Abandoned(Next(s, m)) && Next(s, m).world.db.items == s.world.db.items
    ensures Answering(s) && Tables.AnyOpen(s.world.db.items) ==> Answering(Next(s, m))
  {
    match m
    case OnQueue(_) => TableMoveKeepsOrphaned(s, m);
    case OnPaperTables(st) =>
      NextEvolves(s, m);
      if Allowed(s, st.action) { OthersLeaveItems(s.world.db, Tables.LocalOf(s.world, st.worker), st.action); }
    case LeaseRun(_, id, _, types, now) => assert !(ChainRow(s.prefix, s.table, id) && Queue.Eligible(s.table, id, types, now));
    case _ => assert Next(s, m) == s;
  }

  /** Such a paper, once no worker is left with one of its jobs, stays so in every run in which
      nothing overrides its status: no worker ever takes up a job of its chain again, no item
      changes, and while items are open it stays in answering. */
  lemma {:induction false} LeftForGood(s: State, moves: seq<Move>)
    requires Tracked(s) && Abandoned(s) && !Run(s, moves).world.db.overridden
    ensures Abandoned(Run(s, moves)) && Run(s, moves).world.db.items == s.world.db.items
    ensures Answering(s) && Tables.AnyOpen(s.world.db.items) ==> Answering(Run(s, moves))
    decreases moves
  {
    if moves != [] {
      NextKeepsTracked(s, moves[0]);
      RunEvolves(Next(s, moves[0]), moves[1..]);
      NextKeepsAbandoned(s, moves[0]);
      LeftForGood(Next(s, moves[0]), moves[1..]);
    }
  }

  /******* A run *******/

  lemma RunFront(s: State, m: Move, rest: seq<Move>)
    ensures Run(s, [m] + rest) == Run(Next(s, m), rest)
  {
    assert ([m] + rest)[1..] == rest;
  }

  lemma {:induction false} RunAppend(s: State, a: seq<Move>, b: seq<Move>)
    ensures Run(s, a + b) == Run(Run(s, a), b)
    decreases a
  {
    if a == [] {
      assert a + b == b;
    } else {
      assert a + b == [a[0]] + (a[1..] + b);
      RunFront(s, a[0], a[1..] + b);
      RunAppend(Next(s, a[0]), a[1..], b);
    }
  }

  // A worker leases the job and stops; the recovery finds the job stale.
  function Crashing(worker: Queue.Worker, now: int): seq<Move> {
    [LeaseRun(0, 0, worker, {"multiple_ask_answer"}, now), StopRun(0), OnQueue(Queue.Recover(60, now + 100))]
  }

  function Crashed(j: Queue.Job, worker: Queue.Worker, now: int): Queue.Job {
    Queue.RecoveredRow(Queue.LeasedRow(j, worker, now), 60, now + 100)
  }

  // The chain's first job is the only row, and nobody works.
  predicate Waiting(s: State, j: Queue.Job, now: int) {
    && s.table == map[0 := j] && s.handlers == map[] && j.key == Some(s.prefix) && j.jobType == "multiple_ask_answer"
    && (j.status.Queued? || (j.status.RetryWait? && j.retryAt <= now))
  }

  lemma FirstIsLeased(s: State, j: Queue.Job, worker: Queue.Worker, now: int)
    requires Waiting(s, j, now)
    ensures Next(s, LeaseRun(0, 0, worker, {"multiple_ask_answer"}, now))
            == s.(table := map[0 := Queue.LeasedRow(j, worker, now)], handlers := map[0 := Leased(0, worker)])
  {
  }

  lemma FirstStops(s: State, h: Handler)
    requires s.handlers == map[0 := h]
    ensures Next(s, StopRun(0)) == s.(handlers := map[])
  {
  }

  lemma FirstIsRecovered(s: State, j: Queue.Job, now: int)
    requires s.table == map[0 := j]
    ensures Next(s, OnQueue(Queue.Recover(60, now))) == s.(table := map[0 := Queue.RecoveredRow(j, 60, now)])
  {
    assert Queue.Recovered(s.table, 60, now) == map[0 := Queue.RecoveredRow(j, 60, now)];
  }

  lemma CrashCosts(s: State, j: Queue.Job, worker: Queue.Worker, now: int)
    requires Waiting(s, j, now)
    ensures Run(s, Crashing(worker, now)) == s.(table := map[0 := Crashed(j, worker, now)])
  {
    var c := Crashing(worker, now);
    var leased := s.(table := map[0 := Queue.LeasedRow(j, worker, now)], handlers := map[0 := Leased(0, worker)]);
    FirstIsLeased(s, j, worker, now);
    var stopped := leased.(handlers := map[]);
    FirstStops(leased, Leased(0, worker));
    FirstIsRecovered(stopped, Queue.LeasedRow(j, worker, now), now + 100);
    RunFront(s, c[0], [c[1], c[2]]);
    RunFront(leased, c[1], [c[2]]);
    RunFront(stopped, c[2], []);
  }

  function FirstJob(prefix: string): Queue.Job {
    Queue.QueuedRow(Queue.NewJob("multiple_ask_answer", Some(prefix), 3), 0)
  }

  // A paper with one written item, right after start_for_job.
  function Opening(prefix: string): State {
    State(prefix, 1, map[0 := FirstJob(prefix)], Runs.Opened(Paper.InAnswering, 1, Tables.NewItem(Runs.WRITTEN)), map[])
  }

  lemma OpeningIsStarted(prefix: string)
    ensures Started(Opening(prefix)) && Opening(prefix).world == Tables.Run(Tables.FRESH, Runs.OPENING)
    ensures Tables.AnyOpen(Opening(prefix).world.db.items)
  {
    Runs.OpeningOpens();
    AnswerInvariants.FreshIsSound();
    AnswerInvariants.RunKeepsSound(Tables.FRESH, Runs.OPENING);
    KeySaysLeft(prefix, 0);
    assert Unfinished(prefix, Opening(prefix).table, 0);
    assert Tables.Open(Opening(prefix).world.db.items[0]);
  }

  lemma ThreeCrashes(prefix: string, worker: Queue.Worker)
    ensures var j1 := Crashed(FirstJob(prefix), worker, 0);
            var j2 := Crashed(j1, worker, 105);
            var j3 := Crashed(j2, worker, 210);
            && Waiting(Opening(prefix).(table := map[0 := j1]), j1, 105) && Waiting(Opening(prefix).(table := map[0 := j2]), j2, 210)
            && j3.status.Failed? && j3.attempts == 3 == j3.maxAttempts && j3.key == Some(prefix)
  {
  }

  lemma CrashingOn(s: State, moves: seq<Move>, j: Queue.Job, worker: Queue.Worker, now: int)
    requires Run(s, moves) == s.(table := map[0 := j]) && Waiting(s.(table := map[0 := j]), j, now)
    ensures Run(s, moves + Crashing(worker, now)) == s.(table := map[0 := Crashed(j, worker, now)])
  {
    CrashCosts(s.(table := map[0 := j]), j, worker, now);
    RunAppend(s, moves, Crashing(worker, now));
  }

  lemma ThreeCrashesFail(s: State, prefix: string, worker: Queue.Worker)
    requires s == Opening(prefix)
    ensures var j := Crashed(Crashed(Crashed(FirstJob(prefix), worker, 0), worker, 105), worker, 210);
            Run(s, Crashing(worker, 0) + Crashing(worker, 105) + Crashing(worker, 210)) == s.(table := map[0 := j])
  {
    var j1 := Crashed(FirstJob(prefix), worker, 0);
    ThreeCrashes(prefix, worker);
    CrashCosts(s, FirstJob(prefix), worker, 0);
    CrashingOn(s, Crashing(worker, 0), j1, worker, 105);
    CrashingOn(s, Crashing(worker, 0) + Crashing(worker, 105), Crashed(j1, worker, 105), worker, 210);
  }

  /** From a fresh paper: it is started, and three times a worker leases its job and stops.  The
      recovery then fails the job, and the paper is left in answering with its item open. */
  lemma PaperIsLeft(prefix: string, worker: Queue.Worker)
    ensures var s := Opening(prefix);
            var s' := Run(s, Crashing(worker, 0) + Crashing(worker, 105) + Crashing(worker, 210));
            && Started(s) && s.world == Tables.Run(Tables.FRESH, Runs.OPENING) && s'.world == s.world
            && s'.table.Keys == {0} && s'.table[0].status.Failed? && s'.table[0].attempts == s'.table[0].maxAttempts
            && Answering(s') && Abandoned(s') && Tables.AnyOpen(s'.world.db.items)
  {
    OpeningIsStarted(prefix);
    ThreeCrashes(prefix, worker);
    ThreeCrashesFail(Opening(prefix), prefix, worker);
  }
}
