/** The per-process usage-policy cache over one policy row and its generation.  Updates commit
    value and generation together; readers interleave at every await. */
module PolicyCache {
  import opened Wrappers

  datatype Policy = Policy(dailyLimit: nat, visible: bool)

  // One committed state of the row; a missing row is None.
  datatype Committed = Committed(policy: Option<Policy>, generation: nat)

  datatype Entry = Entry(policy: Policy, generation: nat)

  // Where a get stands.  `start` is the moment its generation was read.
  datatype Reader =
    | Idle
    | GenerationRead(start: nat, generation: nat)
    | Queueing(start: nat, generation: nat)
    | Locked(start: nat, generation: nat)
    | Missed(start: nat, generation: nat)
    | Fetched(start: nat, generation: nat, policy: Policy)
    | Returned(start: nat, policy: Policy, at: nat)

  // The past of the row, newest last; a moment is an index into it.
  datatype World = World(past: seq<Committed>, entry: Option<Entry>, lock: Option<nat>, readers: map<nat, Reader>)

  datatype Action =
    | ReadGeneration
    | CheckUnlocked(unexpired: bool)
    | Acquire
    | CheckLocked(unexpired: bool)
    | ReadRow
    | Store
    | Abandon

  datatype Step =
    | Read(reader: nat, action: Action)
    | Update(policy: Policy)
    | Invalidate
    | Evict

  function Now(past: seq<Committed>): nat
    requires past != []
  {
    |past| - 1
  }

  predicate Hits(entry: Option<Entry>, generation: nat, unexpired: bool) {
    entry.Some? && unexpired && entry.value.generation == generation
  }

  function ReaderOf(w: World, r: nat): Reader {
    if r in w.readers then w.readers[r] else Idle
  }

  predicate InLock(r: Reader) {
    r.Locked? || r.Missed? || r.Fetched?
  }

  // One action of a reader: its new place, the entry, and whether it holds the lock.
  function Act(past: seq<Committed>, entry: Option<Entry>, free: bool, me: Reader, a: Action): (Reader, Option<Entry>)
    requires past != []
  {
    match a
    case ReadGeneration =>
      (if me.Idle? || me.Returned? then GenerationRead(Now(past), past[Now(past)].generation) else me, entry)
    case CheckUnlocked(unexpired) =>
      if !me.GenerationRead? then (me, entry)
      else if Hits(entry, me.generation, unexpired) then (Returned(me.start, entry.value.policy, Now(past)), entry)
      else (Queueing(me.start, me.generation), entry)
    case Acquire => (if me.Queueing? && free then Locked(me.start, me.generation) else me, entry)
    case CheckLocked(unexpired) =>
      if !me.Locked? then (me, entry)
      else if Hits(entry, me.generation, unexpired) then (Returned(me.start, entry.value.policy, Now(past)), entry)
      else (Missed(me.start, me.generation), entry)
    case ReadRow =>
      if !me.Missed? then (me, entry)
      else if past[Now(past)].policy.None? then (Idle, entry)
      else (Fetched(me.start, me.generation, past[Now(past)].policy.value), entry)
    case Store =>
      if !me.Fetched? then (me, entry)
      else (Returned(me.start, me.policy, Now(past)), Some(Entry(me.policy, me.generation)))
    case Abandon => (Idle, entry)
  }

  function Relocked(lock: Option<nat>, r: nat, after: Reader): Option<nat> {
    if InLock(after) then Some(r) else if lock == Some(r) then None else lock
  }

  function Next(w: World, st: Step): World
    requires w.past != []
  {
    var last := w.past[Now(w.past)];
    match st
    case Read(r, a) =>
      var (me, entry) := Act(w.past, w.entry, w.lock.None?, ReaderOf(w, r), a);
      World(w.past, entry, Relocked(w.lock, r, me), w.readers[r := me])
    case Update(policy) => w.(past := w.past + [Committed(Some(policy), last.generation + 1)])
    case Invalidate => w.(past := w.past + [last.(generation := last.generation + 1)], entry := None)
    case Evict => w.(entry := None)
  }

  function Run(w: World, steps: seq<Step>): World
    requires w.past != []
    decreases steps
  {
    if steps == [] then w else Run(Next(w, steps[0]), steps[1..])
  }

  /******* What every step keeps *******/

  ghost predicate HeldBetween(past: seq<Committed>, from: nat, to: nat, policy: Policy) {
    to < |past| && exists t: nat :: from <= t <= to && past[t].policy == Some(policy)
  }

  // Every commit raises the generation, so a generation names one moment.
  predicate Generations(past: seq<Committed>) {
    past != [] && forall t | 0 <= t < |past| :: past[t].generation == past[0].generation + t
  }

  // The entry's policy was held at or after the moment its generation names.
  ghost predicate EntrySound(past: seq<Committed>, e: Entry)
    requires past != []
  {
    e.generation >= past[0].generation && HeldBetween(past, e.generation - past[0].generation, Now(past), e.policy)
  }

  ghost predicate ReaderSound(past: seq<Committed>, r: Reader)
    requires past != []
  {
    match r
    case Idle => true
    case Returned(start, policy, at) => HeldBetween(past, start, at, policy)
    case Fetched(start, generation, policy) =>
      start < |past| && generation == past[start].generation && HeldBetween(past, start, Now(past), policy)
    case _ => r.start < |past| && r.generation == past[r.start].generation
  }

  ghost predicate Sound(w: World) {
    && Generations(w.past)
    && (w.entry.Some? ==> EntrySound(w.past, w.entry.value))
    && (forall r | r in w.readers :: ReaderSound(w.past, w.readers[r]))
    && (forall r | r in w.readers :: InLock(w.readers[r]) <==> w.lock == Some(r))
    && (w.lock.Some? ==> w.lock.value in w.readers)
  }

  lemma HeldLater(past: seq<Committed>, more: seq<Committed>, from: nat, to: nat, policy: Policy)
    requires HeldBetween(past, from, to, policy)
    ensures HeldBetween(past + more, from, to, policy)
    ensures HeldBetween(past + more, from, |past + more| - 1, policy)
  {
    var t: nat :| from <= t <= to && past[t].policy == Some(policy);
    assert (past + more)[t].policy == Some(policy);
  }

  lemma ReadersLater(past: seq<Committed>, more: seq<Committed>, r: Reader)
    requires past != [] && ReaderSound(past, r)
    ensures ReaderSound(past + more, r)
  {
    match r
    case Returned(start, policy, at) => HeldLater(past, more, start, at, policy);
    case Fetched(start, _, policy) => HeldLater(past, more, start, Now(past), policy);
    case _ =>
  }

  /** A hit serves a policy that the table held since the reader read its generation. */
  lemma HitIsCurrentEnough(past: seq<Committed>, e: Entry, start: nat)
    requires Generations(past) && EntrySound(past, e)
    requires start < |past| && e.generation == past[start].generation
    ensures HeldBetween(past, start, Now(past), e.policy)
  {
  }

  lemma ActKeepsSound(past: seq<Committed>, entry: Option<Entry>, free: bool, me: Reader, a: Action)
    requires Generations(past) && ReaderSound(past, me) && (entry.Some? ==> EntrySound(past, entry.value))
    ensures var (me', entry') := Act(past, entry, free, me, a);
            ReaderSound(past, me') && (entry'.Some? ==> EntrySound(past, entry'.value))
  {
    if (a.CheckUnlocked? && me.GenerationRead?) || (a.CheckLocked? && me.Locked?) {
      if Hits(entry, me.generation, a.unexpired) { HitIsCurrentEnough(past, entry.value, me.start); }
    }
    if a.ReadRow? && me.Missed? && past[Now(past)].policy.Some? {
      assert HeldBetween(past, me.start, Now(past), past[Now(past)].policy.value);
    }
  }

  lemma CommitKeepsSound(w: World, next: Committed)
    requires Sound(w) && next.generation == w.past[Now(w.past)].generation + 1
    ensures Sound(w.(past := w.past + [next])) && Sound(w.(past := w.past + [next], entry := None))
  {
    var past := w.past + [next];
    forall r | r in w.readers ensures ReaderSound(past, w.readers[r]) { ReadersLater(w.past, [next], w.readers[r]); }
    if w.entry.Some? {
      HeldLater(w.past, [next], w.entry.value.generation - w.past[0].generation, Now(w.past), w.entry.value.policy);
    }
  }

  lemma ReadKeepsSound(w: World, r: nat, a: Action)
    requires Sound(w)
    ensures Sound(Next(w, Read(r, a)))
  {
    var me := ReaderOf(w, r);
    ActKeepsSound(w.past, w.entry, w.lock.None?, me, a);
    var w' := Next(w, Read(r, a));
    assert InLock(w'.readers[r]) ==> w.lock == None || w.lock == Some(r);
    forall q | q in w'.readers ensures InLock(w'.readers[q]) <==> w'.lock == Some(q) {
      if q != r { assert InLock(w.readers[q]) <==> w.lock == Some(q); }
    }
  }

  lemma NextKeepsSound(w: World, st: Step)
    requires Sound(w)
    ensures Sound(Next(w, st)) && w.past <= Next(w, st).past
  {
    match st
    case Read(r, a) => ReadKeepsSound(w, r, a);
    case Update(policy) => CommitKeepsSound(w, Committed(Some(policy), w.past[Now(w.past)].generation + 1));
    case Invalidate => CommitKeepsSound(w, w.past[Now(w.past)].(generation := w.past[Now(w.past)].generation + 1));
    case Evict =>
  }

  lemma {:induction false} RunKeepsSound(w: World, steps: seq<Step>)
    requires Sound(w)
    ensures Sound(Run(w, steps)) && w.past <= Run(w, steps).past
    decreases steps
  {
    if steps != [] {
      NextKeepsSound(w, steps[0]);
      RunKeepsSound(Next(w, steps[0]), steps[1..]);
    }
  }

  /** Every completed get, in every interleaving, returned a policy that the table held at some
      moment between the start and the end of that very call. */
  lemma EveryGetIsFresh(w: World, steps: seq<Step>, r: nat)
    requires Sound(w) && ReaderOf(Run(w, steps), r).Returned?
    ensures var done := ReaderOf(Run(w, steps), r);
            HeldBetween(Run(w, steps).past, done.start, done.at, done.policy)
  {
    RunKeepsSound(w, steps);
  }

  predicate StartsFrom(r: Reader, moment: nat) {
    !r.Idle? ==> r.start >= moment
  }

  lemma StartStays(w: World, st: Step, r: nat, moment: nat)
    requires w.past != [] && StartsFrom(ReaderOf(w, r), moment) && moment <= Now(w.past)
    ensures Next(w, st).past != [] && moment <= Now(Next(w, st).past)
    ensures StartsFrom(ReaderOf(Next(w, st), r), moment)
  {
    if st.Read? && st.reader == r {
      assert StartsFrom(Act(w.past, w.entry, w.lock.None?, ReaderOf(w, r), st.action).0, moment);
    }
  }

  lemma {:induction false} StartsStay(w: World, steps: seq<Step>, r: nat, moment: nat)
    requires w.past != [] && StartsFrom(ReaderOf(w, r), moment) && moment <= Now(w.past)
    ensures StartsFrom(ReaderOf(Run(w, steps), r), moment)
    decreases steps
  {
    if steps != [] {
      StartStays(w, steps[0], r, moment);
      StartsStay(Next(w, steps[0]), steps[1..], r, moment);
    }
  }

  /** An update that committed before a call began is never overlooked by that call: it can only
      return policies held from then on. */
  lemma UpdatesAreNeverOverlooked(w: World, steps: seq<Step>, r: nat)
    requires Sound(w) && ReaderOf(w, r).Idle? && ReaderOf(Run(w, steps), r).Returned?
    ensures var done := ReaderOf(Run(w, steps), r);
            HeldBetween(Run(w, steps).past, Now(w.past), done.at, done.policy)
  {
    EveryGetIsFresh(w, steps, r);
    StartsStay(w, steps, r, Now(w.past));
  }

  /** At most one reader of the process is between its locked check and its store. */
  lemma LockExcludes(w: World, steps: seq<Step>, r: nat, q: nat)
    requires Sound(w) && InLock(ReaderOf(Run(w, steps), r)) && InLock(ReaderOf(Run(w, steps), q))
    ensures r == q
  {
    RunKeepsSound(w, steps);
  }

  /******* The cache *******/

  class UsagePolicyCache {
    var past: seq<Committed>
    var entry: Option<Entry>
    var lock: Option<nat>
    var others: map<nat, Reader>

    ghost predicate Valid()
      reads this
    {
      Sound(World(past, entry, lock, others))
    }

    constructor (initial: Committed)
      ensures Valid() && past == [initial]
    {
      past, entry, lock, others := [initial], None, None, map[];
    }

    /** Any updates and any steps of other readers, while this one awaits. */
    method Meanwhile()
      requires Valid()
      modifies this
      ensures Valid() && old(past) <= past
    {
      var steps: seq<Step> := *;
      RunKeepsSound(World(past, entry, lock, others), steps);
      var w := Run(World(past, entry, lock, others), steps);
      past, entry, lock, others := w.past, w.entry, w.lock, w.readers;
    }

    /** One get.  Entries may be expired at either check, and the lock is one more place to wait. */
    method Get(expiredAtFirst: bool, expiredAtSecond: bool) returns (policy: Option<Policy>, ghost start: nat)
      requires Valid()
      modifies this
      ensures Valid() && old(past) <= past && start >= |old(past)| - 1
      ensures policy.Some? ==> HeldBetween(past, start, Now(past), policy.value)
      ensures policy.None? ==> exists t: nat :: start <= t < |past| && past[t].policy.None?
    {
      Meanwhile();
      start := Now(past);
      var generation := past[|past| - 1].generation;
      Meanwhile();
      if entry.Some? && !expiredAtFirst && entry.value.generation == generation {
        HitIsCurrentEnough(past, entry.value, start);
        return Some(entry.value.policy), start;
      }
      Meanwhile();
      if entry.Some? && !expiredAtSecond && entry.value.generation == generation {
        HitIsCurrentEnough(past, entry.value, start);
        return Some(entry.value.policy), start;
      }
      Meanwhile();
      ghost var read := Now(past);
      policy := past[|past| - 1].policy;
      Meanwhile();
      if policy.None? {
        assert past[read].policy.None?;
        return;
      }
      assert past[read].policy == policy;
      entry := Some(Entry(policy.value, generation));
    }
  }
}
