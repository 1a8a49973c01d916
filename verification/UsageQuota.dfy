/** The two-store usage quota: a Redis counter with request keys in front of a
    PostgreSQL ledger.  Every Redis script and every database transaction is one
    step; any number of calls may be in flight between their steps. */
module UsageQuota {
  import opened Wrappers

  datatype Bucket = Bucket(date: nat, feature: string, uid: string)

  // The Redis request key carries the whole bucket; the ledger's primary key does not.
  datatype RequestKey = RequestKey(bucket: Bucket, request: string)
  datatype RowKey = RowKey(request: string, uid: string)

  datatype Backend = OnRedis | OnPostgres
  datatype Status = Reserved | Committed | Refunded
  datatype Row = Row(bucket: Bucket, backend: Backend, status: Status)

  datatype Redis = Redis(counters: map<Bucket, nat>, keys: set<RequestKey>)
  datatype Ledger = Ledger(rows: map<RowKey, Row>, used: map<Bucket, nat>)

  datatype ScriptReply = Denied | Incremented | AlreadyHeld
  datatype LedgerReply = Charged | DuplicateRow | LimitReached

  function Counter(r: Redis, b: Bucket): nat {
    if b in r.counters then r.counters[b] else 0
  }

  function Used(l: Ledger, b: Bucket): nat {
    if b in l.used then l.used[b] else 0
  }

  function RowKeyOf(k: RequestKey): RowKey {
    RowKey(k.request, k.bucket.uid)
  }

  function RedisKeyOf(l: Ledger, k: RowKey): RequestKey
    requires k in l.rows
  {
    RequestKey(l.rows[k].bucket, k.request)
  }

  /******* The two scripts and the ledger statements *******/

  function ReserveScript(r: Redis, key: RequestKey, limit: nat): (Redis, ScriptReply) {
    if key in r.keys then (r, AlreadyHeld)
    else if Counter(r, key.bucket) >= limit then (r, Denied)
    else (Redis(r.counters[key.bucket := Counter(r, key.bucket) + 1], r.keys + {key}), Incremented)
  }

  function RefundScript(r: Redis, key: RequestKey): Redis {
    if key !in r.keys then r
    else
      var used := Counter(r, key.bucket);
      Redis(if used > 0 then r.counters[key.bucket := used - 1] else r.counters, r.keys - {key})
  }

  function ReserveRow(l: Ledger, key: RequestKey, backend: Backend, limit: nat): (Ledger, LedgerReply) {
    var row := RowKeyOf(key);
    if row in l.rows then (l, DuplicateRow)
    else if Used(l, key.bucket) >= limit then (l, LimitReached)
    else (Ledger(l.rows[row := Row(key.bucket, backend, Reserved)],
                 l.used[key.bucket := Used(l, key.bucket) + 1]), Charged)
  }

  function CommitRow(l: Ledger, k: RowKey): Ledger {
    if k in l.rows && l.rows[k].status == Reserved
    then l.(rows := l.rows[k := l.rows[k].(status := Committed)])
    else l
  }

  // refund asks for a reserved row, refund_committed for a committed one.
  predicate Refundable(l: Ledger, k: RowKey, from: Status) {
    k in l.rows && l.rows[k].status == from && from != Refunded
  }

  function RefundRow(l: Ledger, k: RowKey): Ledger
    requires k in l.rows
  {
    var b := l.rows[k].bucket;
    var used := if Used(l, b) > 0 then Used(l, b) - 1 else 0;
    Ledger(l.rows[k := l.rows[k].(status := Refunded)],
           if b in l.used then l.used[b := used] else l.used)
  }

  /******* Calls in flight and the steps of a run *******/

  datatype Decision = Held(incremented: bool) | Fallback

  datatype Call =
    | Pending(key: RequestKey, decision: Decision, limit: nat)
    | Owing(key: RequestKey)

  datatype World = World(redis: Redis, ledger: Ledger, calls: map<nat, Call>)

  // A Redis call may raise before its script ran, or after it ran but before the reply arrived.
  datatype Reply = Answers | RaisesUnrun | RaisesAfterRun

  // The reservation's transaction commits, raises inside the reservation's own handler,
  // or is rolled back by its caller after the reservation returned.
  datatype Fate = Commits | RaisesInside | RollsBackOutside

  datatype Step =
    | ReserveInRedis(call: nat, key: RequestKey, limit: nat, reply: Reply)
    | ReserveInLedger(call: nat, fate: Fate)
    | Compensate(call: nat, runs: bool)
    | Crash(call: nat)
    | CommitReservation(row: RowKey)
    | RefundReservation(row: RowKey, from: Status, redisRuns: bool, rollsBack: bool)

  function Without(calls: map<nat, Call>, call: nat): map<nat, Call> {
    map c | c in calls && c != call :: calls[c]
  }

  function Next(w: World, st: Step): World {
    match st
    case ReserveInRedis(call, key, limit, reply) =>
      if call in w.calls then w
      else if reply.RaisesUnrun? then w.(calls := w.calls[call := Pending(key, Fallback, limit)])
      else
        var (r, script) := ReserveScript(w.redis, key, limit);
        if reply.RaisesAfterRun? then World(r, w.ledger, w.calls[call := Pending(key, Fallback, limit)])
        else if script.Denied? then w
        else World(r, w.ledger, w.calls[call := Pending(key, Held(script.Incremented?), limit)])
    case ReserveInLedger(call, fate) =>
      if call !in w.calls || !w.calls[call].Pending? then w
      else
        var Pending(key, decision, limit) := w.calls[call];
        var (l, reply) := ReserveRow(w.ledger, key, if decision.Fallback? then OnPostgres else OnRedis, limit);
        var rest := Without(w.calls, call);
        if fate.RaisesInside? || reply.LimitReached? then
          w.(calls := if decision == Held(true) then rest[call := Owing(key)] else rest)
        else if fate.RollsBackOutside? then w.(calls := rest)
        else World(w.redis, l, rest)
    case Compensate(call, runs) =>
      if call !in w.calls || !w.calls[call].Owing? then w
      else World(if runs then RefundScript(w.redis, w.calls[call].key) else w.redis,
                 w.ledger, Without(w.calls, call))
    case Crash(call) => w.(calls := Without(w.calls, call))
    case CommitReservation(row) => w.(ledger := CommitRow(w.ledger, row))
    case RefundReservation(row, from, redisRuns, rollsBack) =>
      if !Refundable(w.ledger, row, from) then w
      else
        var r := if redisRuns && w.ledger.rows[row].backend == OnRedis
                 then RefundScript(w.redis, RedisKeyOf(w.ledger, row)) else w.redis;
        World(r, if rollsBack then w.ledger else RefundRow(w.ledger, row), w.calls)
  }

  function Run(w: World, steps: seq<Step>): World
    decreases steps
  {
    if steps == [] then w else Run(Next(w, steps[0]), steps[1..])
  }

  lemma RunFront(w: World, st: Step, rest: seq<Step>)
    ensures Run(w, [st] + rest) == Run(Next(w, st), rest)
  {
    assert ([st] + rest)[1..] == rest;
  }

  const EMPTY := World(Redis(map[], {}), Ledger(map[], map[]), map[])

  /******* Conservation in each store *******/

  function KeysOf(r: Redis, b: Bucket): set<RequestKey> {
    set k | k in r.keys && k.bucket == b
  }

  predicate Live(l: Ledger, k: RowKey) {
    k in l.rows && l.rows[k].status != Refunded
  }

  function LiveRows(l: Ledger, b: Bucket): set<RowKey> {
    set k | k in l.rows && Live(l, k) && l.rows[k].bucket == b
  }

  ghost predicate CounterExact(r: Redis) {
    forall b :: Counter(r, b) == |KeysOf(r, b)|
  }

  ghost predicate LedgerExact(l: Ledger) {
    forall b :: Used(l, b) == |LiveRows(l, b)|
  }

  ghost predicate RowsFiled(l: Ledger) {
    forall k | k in l.rows :: l.rows[k].bucket.uid == k.uid
  }

  ghost predicate Conserved(w: World) {
    CounterExact(w.redis) && LedgerExact(w.ledger) && RowsFiled(w.ledger)
  }

  lemma KeysAfterAdding(r: Redis, r': Redis, key: RequestKey, b: Bucket)
    requires key !in r.keys && r'.keys == r.keys + {key}
    ensures |KeysOf(r', b)| == |KeysOf(r, b)| + (if b == key.bucket then 1 else 0)
  {
    if b == key.bucket {
      assert KeysOf(r', b) == KeysOf(r, b) + {key};
    } else {
      assert KeysOf(r', b) == KeysOf(r, b);
    }
  }

  lemma ReserveScriptConserves(r: Redis, key: RequestKey, limit: nat)
    requires CounterExact(r)
    ensures CounterExact(ReserveScript(r, key, limit).0)
  {
    var (r', reply) := ReserveScript(r, key, limit);
    if reply.Incremented? {
      forall b ensures Counter(r', b) == |KeysOf(r', b)| { KeysAfterAdding(r, r', key, b); }
    }
  }

  lemma RefundScriptConserves(r: Redis, key: RequestKey)
    requires CounterExact(r)
    ensures CounterExact(RefundScript(r, key))
  {
    var r' := RefundScript(r, key);
    if key in r.keys {
      forall b ensures Counter(r', b) == |KeysOf(r', b)| {
        KeysAfterAdding(r', r, key, b);
        assert Counter(r, b) == |KeysOf(r, b)|;
      }
    }
  }

  predicate SameRow(l: Ledger, l': Ledger, k: RowKey) {
    && (k in l.rows <==> k in l'.rows)
    && (k in l.rows ==> l.rows[k] == l'.rows[k])
  }

  lemma RowsAfterAdding(l: Ledger, l': Ledger, k: RowKey, b: Bucket)
    requires !Live(l, k) && Live(l', k)
    requires forall j | j != k :: SameRow(l, l', j)
    ensures |LiveRows(l', b)| == |LiveRows(l, b)| + (if b == l'.rows[k].bucket then 1 else 0)
  {
    var added := if b == l'.rows[k].bucket then {k} else {};
    forall j ensures j in LiveRows(l', b) <==> j in LiveRows(l, b) + added {
      if j != k { assert SameRow(l, l', j); }
    }
    assert LiveRows(l', b) == LiveRows(l, b) + added;
  }

  lemma ReserveRowConserves(l: Ledger, key: RequestKey, backend: Backend, limit: nat)
    requires LedgerExact(l) && RowsFiled(l)
    ensures LedgerExact(ReserveRow(l, key, backend, limit).0)
    ensures RowsFiled(ReserveRow(l, key, backend, limit).0)
  {
    var (l', reply) := ReserveRow(l, key, backend, limit);
    if reply.Charged? {
      forall b ensures Used(l', b) == |LiveRows(l', b)| { RowsAfterAdding(l, l', RowKeyOf(key), b); }
    }
  }

  lemma CommitConserves(l: Ledger, k: RowKey)
    requires LedgerExact(l) && RowsFiled(l)
    ensures LedgerExact(CommitRow(l, k)) && RowsFiled(CommitRow(l, k))
  {
    var l' := CommitRow(l, k);
    forall b ensures Used(l', b) == |LiveRows(l', b)| {
      assert LiveRows(l', b) == LiveRows(l, b);
    }
  }

  lemma RefundConserves(l: Ledger, k: RowKey)
    requires LedgerExact(l) && RowsFiled(l) && Live(l, k)
    ensures LedgerExact(RefundRow(l, k)) && RowsFiled(RefundRow(l, k))
  {
    var l' := RefundRow(l, k);
    forall b ensures Used(l', b) == |LiveRows(l', b)| {
      RowsAfterAdding(l', l, k, b);
      assert Used(l, b) == |LiveRows(l, b)|;
    }
  }

  lemma NextConserves(w: World, st: Step)
    requires Conserved(w)
    ensures Conserved(Next(w, st))
  {
    match st
    case ReserveInRedis(call, key, limit, reply) => ReserveScriptConserves(w.redis, key, limit);
    case ReserveInLedger(call, fate) =>
      if call in w.calls && w.calls[call].Pending? {
        var Pending(key, decision, limit) := w.calls[call];
        ReserveRowConserves(w.ledger, key, if decision.Fallback? then OnPostgres else OnRedis, limit);
      }
    case Compensate(call, runs) =>
      if call in w.calls { RefundScriptConserves(w.redis, w.calls[call].key); }
    case Crash(_) =>
    case CommitReservation(row) => CommitConserves(w.ledger, row);
    case RefundReservation(row, from, redisRuns, rollsBack) =>
      if Refundable(w.ledger, row, from) {
        RefundConserves(w.ledger, row);
        RefundScriptConserves(w.redis, RedisKeyOf(w.ledger, row));
      }
  }

  /** In every run, whatever interleaves, crashes or fails: each Redis counter equals the
      number of its request keys, and each daily_usage row the number of live reservations. */
  lemma {:induction false} RunConserves(w: World, steps: seq<Step>)
    requires Conserved(w)
    ensures Conserved(Run(w, steps))
    decreases steps
  {
    if steps != [] {
      NextConserves(w, steps[0]);
      RunConserves(Next(w, steps[0]), steps[1..]);
    }
  }

  /** So neither floor ever hides anything: a live row, or a held key, is always counted. */
  lemma FloorsNeverBite(w: World, k: RowKey, key: RequestKey)
    requires Conserved(w)
    ensures Live(w.ledger, k) ==> Used(w.ledger, w.ledger.rows[k].bucket) > 0
    ensures key in w.redis.keys ==> Counter(w.redis, key.bucket) > 0
  {
    if Live(w.ledger, k) { assert k in LiveRows(w.ledger, w.ledger.rows[k].bucket); }
    if key in w.redis.keys { assert key in KeysOf(w.redis, key.bucket); }
  }

  /******* The limit *******/

  predicate LimitsWithin(w: World, b: Bucket, limit: nat) {
    forall c | c in w.calls && w.calls[c].Pending? && w.calls[c].key.bucket == b :: w.calls[c].limit <= limit
  }

  predicate AsksWithin(steps: seq<Step>, b: Bucket, limit: nat) {
    forall i | 0 <= i < |steps| && steps[i].ReserveInRedis? && steps[i].key.bucket == b :: steps[i].limit <= limit
  }

  /** While the policy allows at most `limit`, neither store ever goes above it. */
  lemma {:induction false} RunStaysWithinLimit(w: World, steps: seq<Step>, b: Bucket, limit: nat)
    requires Used(w.ledger, b) <= limit && Counter(w.redis, b) <= limit
    requires LimitsWithin(w, b, limit) && AsksWithin(steps, b, limit)
    ensures Used(Run(w, steps).ledger, b) <= limit && Counter(Run(w, steps).redis, b) <= limit
    decreases steps
  {
    if steps != [] {
      StepStaysWithinLimit(w, steps[0], b, limit);
      RunStaysWithinLimit(Next(w, steps[0]), steps[1..], b, limit);
    }
  }

  lemma StepStaysWithinLimit(w: World, st: Step, b: Bucket, limit: nat)
    requires Used(w.ledger, b) <= limit && Counter(w.redis, b) <= limit && LimitsWithin(w, b, limit)
    requires st.ReserveInRedis? && st.key.bucket == b ==> st.limit <= limit
    ensures Used(Next(w, st).ledger, b) <= limit && Counter(Next(w, st).redis, b) <= limit
    ensures LimitsWithin(Next(w, st), b, limit)
  {
  }

  /******* Charged once, refunded once *******/

  function Charges(w: World, steps: seq<Step>, k: RowKey): nat
    decreases steps
  {
    if steps == [] then 0
    else (if k !in w.ledger.rows && k in Next(w, steps[0]).ledger.rows then 1 else 0)
         + Charges(Next(w, steps[0]), steps[1..], k)
  }

  function Refunds(w: World, steps: seq<Step>, k: RowKey): nat
    decreases steps
  {
    if steps == [] then 0
    else (if Live(w.ledger, k) && !Live(Next(w, steps[0]).ledger, k) then 1 else 0)
         + Refunds(Next(w, steps[0]), steps[1..], k)
  }

  lemma RowsOnlyAdvance(w: World, st: Step, k: RowKey)
    ensures k in w.ledger.rows ==>
      && k in Next(w, st).ledger.rows
      && Next(w, st).ledger.rows[k].bucket == w.ledger.rows[k].bucket
      && Next(w, st).ledger.rows[k].backend == w.ledger.rows[k].backend
      && (w.ledger.rows[k].status == Refunded ==> Next(w, st).ledger.rows[k].status == Refunded)
      && (w.ledger.rows[k].status == Committed ==> Next(w, st).ledger.rows[k].status != Reserved)
    ensures k !in w.ledger.rows && k in Next(w, st).ledger.rows ==> Next(w, st).ledger.rows[k].status == Reserved
  {
  }

  /** One request is charged at most once and refunded at most once, never refunded without
      having been charged, and it is live at the end exactly when it was charged and not refunded. */
  lemma {:induction false} ChargedOnceRefundedOnce(w: World, steps: seq<Step>, k: RowKey)
    ensures Charges(w, steps, k) <= (if k in w.ledger.rows then 0 else 1)
    ensures Refunds(w, steps, k) <= Charges(w, steps, k) + (if Live(w.ledger, k) then 1 else 0)
    ensures Live(Run(w, steps).ledger, k) <==>
      Charges(w, steps, k) + (if Live(w.ledger, k) then 1 else 0) == Refunds(w, steps, k) + 1
    decreases steps
  {
    if steps != [] {
      RowsOnlyAdvance(w, steps[0], k);
      ChargedOnceRefundedOnce(Next(w, steps[0]), steps[1..], k);
    }
  }

  /******* Agreement of the two stores *******/

  predicate LiveOnRedis(l: Ledger, k: RowKey) {
    Live(l, k) && l.rows[k].backend == OnRedis
  }

  // Every live Redis-backed reservation still holds its request key.
  predicate Covered(w: World) {
    forall k | k in w.ledger.rows && LiveOnRedis(w.ledger, k) :: RedisKeyOf(w.ledger, k) in w.redis.keys
  }

  // The row that relies on a request key, if it is live and Redis-backed.
  predicate ReliedOn(l: Ledger, key: RequestKey) {
    LiveOnRedis(l, RowKeyOf(key)) && l.rows[RowKeyOf(key)].bucket == key.bucket
  }

  /** The three branches that leave a live reservation without its key: a reservation committed
      after someone else removed the key it was told it held; a compensation for a request that
      another call has meanwhile reserved; and a refund rolled back after its script ran. */
  predicate Strands(w: World, st: Step) {
    match st
    case ReserveInLedger(call, fate) =>
      && call in w.calls && w.calls[call].Pending? && fate.Commits?
      && w.calls[call].decision.Held? && w.calls[call].key !in w.redis.keys
      && RowKeyOf(w.calls[call].key) !in w.ledger.rows
      && Used(w.ledger, w.calls[call].key.bucket) < w.calls[call].limit
    case Compensate(call, runs) =>
      call in w.calls && w.calls[call].Owing? && runs && ReliedOn(w.ledger, w.calls[call].key)
    case RefundReservation(row, from, redisRuns, rollsBack) =>
      Refundable(w.ledger, row, from) && w.ledger.rows[row].backend == OnRedis && redisRuns && rollsBack
    case _ => false
  }

  lemma RelyingRow(w: World, key: RequestKey, k: RowKey)
    requires RowsFiled(w.ledger) && k in w.ledger.rows && RedisKeyOf(w.ledger, k) == key
    ensures k == RowKeyOf(key)
  {
  }

  lemma RemovalStrandsOnlyItsRow(w: World, key: RequestKey)
    requires RowsFiled(w.ledger) && Covered(w)
    ensures Covered(w.(redis := RefundScript(w.redis, key))) <==> !ReliedOn(w.ledger, key)
  {
    var w' := w.(redis := RefundScript(w.redis, key));
    if ReliedOn(w.ledger, key) {
      assert RedisKeyOf(w.ledger, RowKeyOf(key)) == key;
      assert !Covered(w');
    } else {
      forall k | k in w'.ledger.rows && LiveOnRedis(w'.ledger, k)
        ensures RedisKeyOf(w'.ledger, k) in w'.redis.keys
      {
        if RedisKeyOf(w.ledger, k) == key { RelyingRow(w, key, k); }
      }
    }
  }

  /** A step breaks the agreement exactly when it is one of the stranding branches. */
  lemma StepStrandsExactly(w: World, st: Step)
    requires Conserved(w) && Covered(w)
    ensures Covered(Next(w, st)) <==> !Strands(w, st)
  {
    var w' := Next(w, st);
    match st
    case ReserveInRedis(_, _, _, _) =>
    case ReserveInLedger(call, fate) =>
      if call in w.calls && w.calls[call].Pending? {
        var key := w.calls[call].key;
        if w'.ledger != w.ledger {
          assert w'.ledger.rows[RowKeyOf(key)].bucket == key.bucket;
          assert RedisKeyOf(w'.ledger, RowKeyOf(key)) == key;
          forall k | k in w.ledger.rows ensures k != RowKeyOf(key) && w'.ledger.rows[k] == w.ledger.rows[k] {}
        }
      }
    case Compensate(call, runs) =>
      if call in w.calls && w.calls[call].Owing? {
        RemovalStrandsOnlyItsRow(w, w.calls[call].key);
        assert Covered(World(w'.redis, w.ledger, w.calls)) <==> Covered(w');
      }
    case Crash(_) =>
    case CommitReservation(row) => CommitKeepsCover(w, row);
    case RefundReservation(row, from, redisRuns, rollsBack) =>
      if Refundable(w.ledger, row, from) { RefundStrandsExactly(w, row, from, redisRuns, rollsBack); }
  }

  lemma CommitKeepsCover(w: World, row: RowKey)
    requires Covered(w)
    ensures Covered(w.(ledger := CommitRow(w.ledger, row)))
  {
    var l' := CommitRow(w.ledger, row);
    forall k | k in l'.rows && LiveOnRedis(l', k) ensures RedisKeyOf(l', k) in w.redis.keys {
      assert LiveOnRedis(w.ledger, k) && RedisKeyOf(w.ledger, k) == RedisKeyOf(l', k);
    }
  }

  lemma RefundStrandsExactly(w: World, row: RowKey, from: Status, redisRuns: bool, rollsBack: bool)
    requires Conserved(w) && Covered(w) && Refundable(w.ledger, row, from)
    ensures var st := RefundReservation(row, from, redisRuns, rollsBack);
            Covered(Next(w, st)) <==> !Strands(w, st)
  {
    var w' := Next(w, RefundReservation(row, from, redisRuns, rollsBack));
    var key := RedisKeyOf(w.ledger, row);
    RemovalStrandsOnlyItsRow(w, key);
    if !rollsBack {
      forall k | k in w'.ledger.rows && LiveOnRedis(w'.ledger, k) ensures RedisKeyOf(w'.ledger, k) in w'.redis.keys {
        assert LiveOnRedis(w.ledger, k) && RedisKeyOf(w.ledger, k) == RedisKeyOf(w'.ledger, k);
        if RedisKeyOf(w.ledger, k) == key { RelyingRow(w, key, k); RelyingRow(w, key, row); }
      }
    }
  }

  predicate RunStrands(w: World, steps: seq<Step>)
    decreases steps
  {
    steps != [] && (Strands(w, steps[0]) || RunStrands(Next(w, steps[0]), steps[1..]))
  }

  predicate AlwaysCovered(w: World, steps: seq<Step>)
    decreases steps
  {
    Covered(w) && (steps == [] || AlwaysCovered(Next(w, steps[0]), steps[1..]))
  }

  /** A whole run keeps the stores in agreement exactly when no step of it strands a row. */
  lemma {:induction false} RunCoveredExactly(w: World, steps: seq<Step>)
    requires Conserved(w) && Covered(w)
    ensures AlwaysCovered(w, steps) <==> !RunStrands(w, steps)
    decreases steps
  {
    if steps != [] {
      StepStrandsExactly(w, steps[0]);
      NextConserves(w, steps[0]);
      if Covered(Next(w, steps[0])) {
        RunCoveredExactly(Next(w, steps[0]), steps[1..]);
      } else {
        assert !AlwaysCovered(Next(w, steps[0]), steps[1..]);
      }
    }
  }

  /** Agreement is what keeps Redis from under-counting the reservations it backs. */
  lemma RedisNeverUndercounts(w: World, b: Bucket)
    requires Conserved(w) && Covered(w)
    ensures |(set k | k in LiveRows(w.ledger, b) && w.ledger.rows[k].backend == OnRedis)| <= Counter(w.redis, b)
  {
    var backed := set k | k in LiveRows(w.ledger, b) && w.ledger.rows[k].backend == OnRedis;
    forall k | k in backed ensures RequestKey(b, k.request) in KeysOf(w.redis, b) && k.uid == b.uid {
      assert LiveOnRedis(w.ledger, k) && RedisKeyOf(w.ledger, k) == RequestKey(b, k.request);
    }
    RowsFitTheirKeys(backed, b, KeysOf(w.redis, b));
  }

  lemma {:induction false} RowsFitTheirKeys(rows: set<RowKey>, b: Bucket, keys: set<RequestKey>)
    requires forall k | k in rows :: k.uid == b.uid && RequestKey(b, k.request) in keys
    ensures |rows| <= |keys|
  {
    if rows != {} {
      var k :| k in rows;
      RowsFitTheirKeys(rows - {k}, b, keys - {RequestKey(b, k.request)});
    }
  }

  /******* When callers rule the stranding branches out *******/

  // One call at a time per request, as the row lock around the batch reservation gives,
  // and no refund whose transaction is rolled back.
  predicate Orderly(w: World, st: Step) {
    match st
    case ReserveInRedis(call, key, _, _) => forall c | c in w.calls :: w.calls[c].key != key
    case RefundReservation(_, _, _, rollsBack) => !rollsBack
    case _ => true
  }

  predicate OrderlyRun(w: World, steps: seq<Step>)
    decreases steps
  {
    steps == [] || (Orderly(w, steps[0]) && OrderlyRun(Next(w, steps[0]), steps[1..]))
  }

  // A call in flight still holds its key unless its row exists, and nobody else relies on
  // a key that this call itself created.
  ghost predicate CallsSound(w: World) {
    && (forall c, d | c in w.calls && d in w.calls && c != d :: w.calls[c].key != w.calls[d].key)
    && (forall c | c in w.calls && w.calls[c].Pending? && w.calls[c].decision.Held? ::
          w.calls[c].key in w.redis.keys || RowKeyOf(w.calls[c].key) in w.ledger.rows)
    && (forall c | c in w.calls && (w.calls[c].Owing? || w.calls[c].decision == Held(true)) ::
          !ReliedOn(w.ledger, w.calls[c].key))
  }

  lemma OrderlyStepsDoNotStrand(w: World, st: Step)
    requires CallsSound(w) && Orderly(w, st)
    ensures !Strands(w, st)
  {
  }

  lemma OrderlyReserveKeepsCallsSound(w: World, call: nat, key: RequestKey, limit: nat, reply: Reply)
    requires RowsFiled(w.ledger) && Covered(w) && CallsSound(w)
    requires forall c | c in w.calls :: w.calls[c].key != key
    ensures CallsSound(Next(w, ReserveInRedis(call, key, limit, reply)))
  {
    if ReliedOn(w.ledger, key) {
      assert RedisKeyOf(w.ledger, RowKeyOf(key)) == key;
      assert key in w.redis.keys;
    }
  }

  lemma LedgerStepKeepsCallsSound(w: World, call: nat, fate: Fate)
    requires CallsSound(w)
    ensures CallsSound(Next(w, ReserveInLedger(call, fate)))
  {
    var w' := Next(w, ReserveInLedger(call, fate));
    if call in w.calls && w.calls[call].Pending? {
      forall c | c in w.calls && c != call
        ensures ReliedOn(w'.ledger, w.calls[c].key) ==> ReliedOn(w.ledger, w.calls[c].key)
      {
        assert w.calls[c].key != w.calls[call].key;
      }
    }
  }

  lemma CompensationKeepsCallsSound(w: World, call: nat, runs: bool)
    requires CallsSound(w)
    ensures CallsSound(Next(w, Compensate(call, runs)))
  {
    if call in w.calls && w.calls[call].Owing? {
      assert forall c | c in w.calls && c != call :: w.calls[c].key != w.calls[call].key;
    }
  }

  lemma SettlingKeepsCallsSound(w: World, l': Ledger, r': Redis, k: RowKey)
    requires RowsFiled(w.ledger) && CallsSound(w) && k in w.ledger.rows && k in l'.rows
    requires forall j | j != k :: SameRow(w.ledger, l', j)
    requires l'.rows[k].bucket == w.ledger.rows[k].bucket
    requires LiveOnRedis(l', k) ==> LiveOnRedis(w.ledger, k)
    requires r' == w.redis || r' == RefundScript(w.redis, RedisKeyOf(w.ledger, k))
    ensures CallsSound(World(r', l', w.calls))
  {
    forall c | c in w.calls
      ensures ReliedOn(l', w.calls[c].key) ==> ReliedOn(w.ledger, w.calls[c].key)
      ensures RowKeyOf(w.calls[c].key) in w.ledger.rows ==> RowKeyOf(w.calls[c].key) in l'.rows
      ensures w.calls[c].key in w.redis.keys ==> w.calls[c].key in r'.keys || RowKeyOf(w.calls[c].key) in l'.rows
    {
      var key := w.calls[c].key;
      if RowKeyOf(key) != k { assert SameRow(w.ledger, l', RowKeyOf(key)); }
    }
  }

  lemma OrderlyStepsKeepCallsSound(w: World, st: Step)
    requires Conserved(w) && Covered(w) && CallsSound(w) && Orderly(w, st)
    ensures CallsSound(Next(w, st))
  {
    match st
    case ReserveInRedis(call, key, limit, reply) => OrderlyReserveKeepsCallsSound(w, call, key, limit, reply);
    case ReserveInLedger(call, fate) => LedgerStepKeepsCallsSound(w, call, fate);
    case Compensate(call, runs) => CompensationKeepsCallsSound(w, call, runs);
    case Crash(_) =>
    case CommitReservation(row) =>
      if row in w.ledger.rows { SettlingKeepsCallsSound(w, CommitRow(w.ledger, row), w.redis, row); }
    case RefundReservation(row, from, redisRuns, rollsBack) =>
      if Refundable(w.ledger, row, from) {
        SettlingKeepsCallsSound(w, Next(w, st).ledger, Next(w, st).redis, row);
      }
  }

  /** From the empty stores, any orderly run keeps every live Redis-backed reservation's key. */
  lemma {:induction false} OrderlyRunsStayCovered(w: World, steps: seq<Step>)
    requires Conserved(w) && Covered(w) && CallsSound(w) && OrderlyRun(w, steps)
    ensures AlwaysCovered(w, steps) && !RunStrands(w, steps)
    decreases steps
  {
    if steps != [] {
      OrderlyStepsDoNotStrand(w, steps[0]);
      StepStrandsExactly(w, steps[0]);
      NextConserves(w, steps[0]);
      OrderlyStepsKeepCallsSound(w, steps[0]);
      OrderlyRunsStayCovered(Next(w, steps[0]), steps[1..]);
    }
  }

  lemma EmptyStoresAreSound()
    ensures Conserved(EMPTY) && Covered(EMPTY) && CallsSound(EMPTY)
  {
    forall b ensures KeysOf(EMPTY.redis, b) == {} && LiveRows(EMPTY.ledger, b) == {} {}
  }

  /** The agreement is not unconditional: two deliveries of one request suffice to lose a key. */
  lemma DuplicateDeliveryStrands(key: RequestKey, limit: nat)
    requires limit > 0
    ensures var steps := [ReserveInRedis(0, key, limit, Answers), ReserveInRedis(1, key, limit, Answers),
                          ReserveInLedger(0, RaisesInside), ReserveInLedger(1, Commits), Compensate(0, true)];
            var w := Run(EMPTY, steps);
            && LiveOnRedis(w.ledger, RowKeyOf(key))
            && Used(w.ledger, key.bucket) == 1 && Counter(w.redis, key.bucket) == 0
            && !Covered(w)
  {
    var s1, s2 := ReserveInRedis(0, key, limit, Answers), ReserveInRedis(1, key, limit, Answers);
    var s3, s4, s5 := ReserveInLedger(0, RaisesInside), ReserveInLedger(1, Commits), Compensate(0, true);
    var w2 := BothHoldOneKey(key, limit);
    RunFront(EMPTY, s1, [s2, s3, s4, s5]);
    RunFront(Next(EMPTY, s1), s2, [s3, s4, s5]);
    RunFront(w2, s3, [s4, s5]);
    RunFront(Next(w2, s3), s4, [s5]);
    RunFront(Next(Next(w2, s3), s4), s5, []);
    var w5 := SecondCallLosesItsKey(key, limit, w2);
    assert Run(w5, []) == w5;
    assert RedisKeyOf(w5.ledger, RowKeyOf(key)) == key;
  }

  lemma BothHoldOneKey(key: RequestKey, limit: nat) returns (w: World)
    requires limit > 0
    ensures w == Next(Next(EMPTY, ReserveInRedis(0, key, limit, Answers)), ReserveInRedis(1, key, limit, Answers))
    ensures w == World(Redis(map[key.bucket := 1], {key}), EMPTY.ledger,
                       map[0 := Pending(key, Held(true), limit), 1 := Pending(key, Held(false), limit)])
  {
    var w1 := Next(EMPTY, ReserveInRedis(0, key, limit, Answers));
    assert w1 == World(Redis(map[key.bucket := 1], {key}), EMPTY.ledger, map[0 := Pending(key, Held(true), limit)]);
    w := Next(w1, ReserveInRedis(1, key, limit, Answers));
  }

  lemma SecondCallLosesItsKey(key: RequestKey, limit: nat, w2: World) returns (w5: World)
    requires limit > 0
    requires w2 == World(Redis(map[key.bucket := 1], {key}), EMPTY.ledger,
                         map[0 := Pending(key, Held(true), limit), 1 := Pending(key, Held(false), limit)])
    ensures w5 == Next(Next(Next(w2, ReserveInLedger(0, RaisesInside)), ReserveInLedger(1, Commits)), Compensate(0, true))
    ensures w5.redis == Redis(map[key.bucket := 0], {})
    ensures w5.ledger == Ledger(map[RowKeyOf(key) := Row(key.bucket, OnRedis, Reserved)], map[key.bucket := 1])
  {
    var w3 := Next(w2, ReserveInLedger(0, RaisesInside));
    assert w3.calls == map[0 := Owing(key), 1 := Pending(key, Held(false), limit)];
    var w4 := Next(w3, ReserveInLedger(1, Commits));
    assert w4.calls == map[0 := Owing(key)];
    w5 := Next(w4, Compensate(0, true));
  }

  /** Nor does it survive a refund whose transaction is rolled back after its script ran. */
  lemma RolledBackRefundStrands(w: World, row: RowKey)
    requires Conserved(w) && Covered(w) && LiveOnRedis(w.ledger, row) && w.ledger.rows[row].status == Reserved
    ensures var w' := Next(w, RefundReservation(row, Reserved, true, true));
            !Covered(w') && w'.ledger == w.ledger
            && Counter(w'.redis, w.ledger.rows[row].bucket) == Counter(w.redis, w.ledger.rows[row].bucket) - 1
  {
    FloorsNeverBite(w, row, RedisKeyOf(w.ledger, row));
    StepStrandsExactly(w, RefundReservation(row, Reserved, true, true));
  }

  /** From the empty stores: one reservation, and a refund of it that is rolled back. */
  lemma RolledBackRefundRun(key: RequestKey, limit: nat)
    requires limit > 0
    ensures var w := Run(EMPTY, [ReserveInRedis(0, key, limit, Answers), ReserveInLedger(0, Commits),
                                 RefundReservation(RowKeyOf(key), Reserved, true, true)]);
            && LiveOnRedis(w.ledger, RowKeyOf(key)) && !Covered(w)
            && Used(w.ledger, key.bucket) == 1 && Counter(w.redis, key.bucket) == 0
  {
    var s1, s2, s3 := ReserveInRedis(0, key, limit, Answers), ReserveInLedger(0, Commits),
                      RefundReservation(RowKeyOf(key), Reserved, true, true);
    var w1 := Next(EMPTY, s1);
    assert w1 == World(Redis(map[key.bucket := 1], {key}), EMPTY.ledger, map[0 := Pending(key, Held(true), limit)]);
    var w2 := Next(w1, s2);
    assert w2.ledger.rows == map[RowKeyOf(key) := Row(key.bucket, OnRedis, Reserved)] && w2.redis == w1.redis;
    RunFront(EMPTY, s1, [s2, s3]);
    RunFront(w1, s2, [s3]);
    RunFront(w2, s3, []);
    assert RedisKeyOf(w2.ledger, RowKeyOf(key)) == key;
  }

  /******* The service *******/

  // The three steps of one call, with nothing in between.
  function ReserveAlone(w: World, key: RequestKey, limit: nat, reply: Reply, raises: bool, compensationRuns: bool): World {
    var asked := Next(w, ReserveInRedis(0, key, limit, reply));
    var recorded := Next(asked, ReserveInLedger(0, if raises then RaisesInside else Commits));
    Next(recorded, Compensate(0, compensationRuns))
  }

  datatype Outcome =
    | Reservation(used: nat, backend: Backend, duplicate: bool)
    | LimitExceeded(used: nat)
    | Raised

  class UsageService {
    var counters: map<Bucket, nat>
    var requestKeys: set<RequestKey>
    var rows: map<RowKey, Row>
    var used: map<Bucket, nat>

    constructor ()
      ensures State() == EMPTY
    {
      counters, requestKeys, rows, used := map[], {}, map[], map[];
    }

    ghost function RedisState(): Redis
      reads this
    {
      Redis(counters, requestKeys)
    }

    ghost function State(): World
      reads this
    {
      World(RedisState(), Ledger(rows, used), map[])
    }

    method EvalReserve(key: RequestKey, limit: nat) returns (decision: int, redisUsed: nat)
      modifies this`counters, this`requestKeys
      ensures RedisState() == ReserveScript(old(RedisState()), key, limit).0
      ensures redisUsed == Counter(RedisState(), key.bucket)
      ensures match ReserveScript(old(RedisState()), key, limit).1
              case Denied => decision == 0
              case Incremented => decision == 1
              case AlreadyHeld => decision == 2
    {
      redisUsed := if key.bucket in counters then counters[key.bucket] else 0;
      if key in requestKeys {
        return 2, redisUsed;
      }
      if redisUsed >= limit {
        return 0, redisUsed;
      }
      redisUsed := redisUsed + 1;
      counters := counters[key.bucket := redisUsed];
      requestKeys := requestKeys + {key};
      decision := 1;
    }

    method EvalRefund(key: RequestKey)
      modifies this`counters, this`requestKeys
      ensures RedisState() == RefundScript(old(RedisState()), key)
    {
      if key in requestKeys {
        requestKeys := requestKeys - {key};
        var redisUsed := if key.bucket in counters then counters[key.bucket] else 0;
        if redisUsed > 0 {
          counters := counters[key.bucket := redisUsed - 1];
        }
      }
    }

    /** The first try block: any Redis failure falls back to PostgreSQL. */
    method AskRedis(key: RequestKey, limit: nat, reply: Reply)
      returns (decision: Option<Decision>, redisUsed: nat)
      modifies this`counters, this`requestKeys
      ensures World(RedisState(), Ledger(rows, used), if decision.None? then map[] else map[0 := Pending(key, decision.value, limit)])
              == Next(old(State()), ReserveInRedis(0, key, limit, reply))
      ensures decision.None? ==> redisUsed == Counter(RedisState(), key.bucket) >= limit && RedisState() == old(RedisState())
    {
      if reply == RaisesUnrun {
        return Some(Fallback), 0;
      }
      var code, counted := EvalReserve(key, limit);
      if reply == RaisesAfterRun {
        return Some(Fallback), counted;
      }
      decision := if code == 0 then None else Some(Held(code == 1));
      redisUsed := counted;
    }

    /** The second try block: `raises` stands for any database error inside it, and
        `compensationRuns` for whether Redis answers the compensation. */
    method RecordReservation(key: RequestKey, decision: Decision, limit: nat, raises: bool, compensationRuns: bool)
      returns (r: Outcome)
      modifies this
      ensures State() == Next(Next(World(old(RedisState()), old(State()).ledger, map[0 := Pending(key, decision, limit)]),
                                   ReserveInLedger(0, if raises then RaisesInside else Commits)),
                              Compensate(0, compensationRuns))
      ensures r.Raised? <==> raises
      ensures r.Reservation? ==> r.used == Used(State().ledger, key.bucket) && RowKeyOf(key) in rows
      ensures r.Reservation? && RowKeyOf(key) !in old(rows) ==>
        r.used <= limit && rows[RowKeyOf(key)] == Row(key.bucket, if decision.Fallback? then OnPostgres else OnRedis, Reserved)
      ensures !r.Reservation? ==> State().ledger == old(State()).ledger
      ensures r.LimitExceeded? ==> r.used == Used(State().ledger, key.bucket) >= limit
    {
      var backend := if decision == Fallback then OnPostgres else OnRedis;
      var row := RowKey(key.request, key.bucket.uid);
      var current := if key.bucket in used then used[key.bucket] else 0;
      assert Without(map[0 := Pending(key, decision, limit)], 0) == map[];
      if !raises && row in rows {
        return Reservation(current, backend, true);
      }
      if !raises && current < limit {
        rows := rows[row := Row(key.bucket, backend, Reserved)];
        used := used[key.bucket := current + 1];
        return Reservation(current + 1, backend, decision == Held(false));
      }
      assert Without(map[0 := Owing(key)], 0) == map[];
      if decision == Held(true) && compensationRuns {
        EvalRefund(key);
      }
      r := if raises then Raised else LimitExceeded(current);
    }

    method Reserve(key: RequestKey, limit: nat, reply: Reply, raises: bool, compensationRuns: bool)
      returns (r: Outcome)
      modifies this
      ensures State() == ReserveAlone(old(State()), key, limit, reply, raises, compensationRuns)
      ensures r.Reservation? ==> r.used == Used(State().ledger, key.bucket) && RowKeyOf(key) in rows && !raises
      ensures r.Reservation? && RowKeyOf(key) !in old(rows) ==> r.used <= limit
      ensures !r.Reservation? ==> State().ledger == old(State()).ledger
      ensures r.LimitExceeded? ==> r.used >= limit
    {
      var decision, redisUsed := AskRedis(key, limit, reply);
      if decision.None? {
        return LimitExceeded(redisUsed);
      }
      r := RecordReservation(key, decision.value, limit, raises, compensationRuns);
    }

    method Commit(k: RowKey)
      modifies this`rows
      ensures State() == Next(old(State()), CommitReservation(k))
    {
      if k in rows && rows[k].status == Reserved {
        rows := rows[k := rows[k].(status := Committed)];
      }
    }

    /** refund and refund_committed differ only in the status they ask for. */
    method Refund(k: RowKey, from: Status, redisRuns: bool) returns (refunded: bool)
      requires from != Refunded
      modifies this
      ensures State() == Next(old(State()), RefundReservation(k, from, redisRuns, false))
      ensures refunded <==> k in old(rows) && old(rows)[k].status == from
      ensures refunded <==> rows != old(rows)
    {
      if k !in rows || rows[k].status != from {
        return false;
      }
      var row := rows[k];
      rows := rows[k := row.(status := Refunded)];
      assert rows[k] != old(rows)[k];
      if row.bucket in used {
        used := used[row.bucket := if used[row.bucket] > 0 then used[row.bucket] - 1 else 0];
      }
      if row.backend == OnRedis && redisRuns {
        EvalRefund(RequestKey(row.bucket, k.request));
      }
      refunded := true;
    }
  }
}
