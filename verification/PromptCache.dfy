/** Prompt versions in PostgreSQL and their shared Redis cache, keyed by the generation of the
    prompt family.  Resolving and activating are one step each; any Redis call may fail. */
module PromptCache {
  import opened Wrappers
  import opened Sequences

  datatype PromptKey = AskGrounded | AskGeneral
  datatype AnswerMode = ShortMode | LongMode | McqMode
  datatype Family = Family(key: PromptKey, mode: AnswerMode)

  // The scopes a record can have; students always ask with a full one.
  datatype Scope = Full(board: string, classId: string, subject: string)
                 | ClassSubject(classId: string, subject: string)
                 | SubjectGlobal(subject: string)
                 | Global

  datatype Status = Draft | Active | Retired
  datatype Prompt = Prompt(family: Family, scope: Scope, version: nat, content: string, status: Status)

  // Prompt rows are never deleted; a row's id is its place.
  type Generation = g: nat | g > 0 witness 1
  datatype Db = Db(prompts: seq<Prompt>, generations: map<Family, Generation>)

  datatype Record = Record(id: nat, prompt: Prompt)
  datatype CacheKey = CacheKey(family: Family, scope: Scope, generation: nat)
  datatype Redis = Redis(generations: map<Family, nat>, records: map<CacheKey, Record>)

  datatype World = World(db: Db, redis: Redis)

  // Which of a call's Redis commands succeed: generation read and write, record read and write.
  datatype Faults = Faults(readGeneration: bool, writeGeneration: bool, readRecord: bool, writeRecord: bool)

  datatype Step =
    | CreateDraft(family: Family, scope: Scope, content: string)
    | UpdateDraft(id: nat, content: string)
    | Activate(id: nat, requireDraft: bool, published: bool)
    | Resolve(family: Family, scope: Scope, faults: Faults)
    | Evict(cached: CacheKey)

  /******* The database *******/

  function GenerationOf(db: Db, f: Family): Generation {
    if f in db.generations then db.generations[f] else 1
  }

  function IsActive(f: Family, s: Scope): Prompt -> bool {
    (p: Prompt) => p.family == f && p.scope == s && p.status == Active
  }

  function FindActive(db: Db, f: Family, s: Scope): (at: Option<nat>)
    ensures at.Some? ==> at.value < |db.prompts| && IsActive(f, s)(db.prompts[at.value])
  {
    First(db.prompts, IsActive(f, s))
  }

  // Exact scope, then the subject's own; legacy scopes are never candidates.
  function Walk(db: Db, f: Family, s: Scope): (at: Option<nat>)
    requires s.Full?
    ensures at.Some? ==> at.value < |db.prompts| && db.prompts[at.value].status == Active && db.prompts[at.value].family == f
  {
    var exact := FindActive(db, f, s);
    if exact.Some? then exact else FindActive(db, f, SubjectGlobal(s.subject))
  }

  function Walked(db: Db, f: Family, s: Scope): Option<Record>
    requires s.Full?
  {
    var at := Walk(db, f, s);
    if at.None? then None else Some(Record(at.value, db.prompts[at.value]))
  }

  function MaxVersion(prompts: seq<Prompt>, f: Family, s: Scope): (m: nat)
    ensures forall i | 0 <= i < |prompts| && prompts[i].family == f && prompts[i].scope == s :: prompts[i].version <= m
  {
    if prompts == [] then 0
    else
      var front, last := MaxVersion(prompts[..|prompts| - 1], f, s), prompts[|prompts| - 1];
      if last.family == f && last.scope == s && last.version > front then last.version else front
  }

  predicate Activatable(db: Db, id: nat, requireDraft: bool) {
    && id < |db.prompts|
    && if requireDraft then db.prompts[id].status.Draft? else !db.prompts[id].status.Draft?
  }

  // An active row of the target's slot other than the target itself.
  function OtherActive(prompts: seq<Prompt>, target: nat): Option<nat>
    requires target < |prompts|
  {
    First(prompts[target := prompts[target].(status := Retired)], IsActive(prompts[target].family, prompts[target].scope))
  }

  function Activated(db: Db, id: nat): Db
    requires id < |db.prompts|
  {
    var other := OtherActive(db.prompts, id);
    var retired := if other.Some? && other.value < |db.prompts|
                   then db.prompts[other.value := db.prompts[other.value].(status := Retired)] else db.prompts;
    var f := db.prompts[id].family;
    Db(retired[id := db.prompts[id].(status := Active)],
       db.generations[f := if f in db.generations then db.generations[f] + 1 else 2])
  }

  /******* The cache *******/

  // _generation: Redis is only told; the answer is always PostgreSQL's.
  function WithGeneration(redis: Redis, f: Family, generation: nat, read: bool, write: bool): Redis {
    var known := read && f in redis.generations && (if redis.generations[f] >= 1 then redis.generations[f] else 1) == generation;
    if known || !write then redis else redis.(generations := redis.generations[f := generation])
  }

  function Cached(w: World, f: Family, s: Scope, read: bool): Option<Record> {
    var key := CacheKey(f, s, GenerationOf(w.db, f));
    if read && key in w.redis.records then Some(w.redis.records[key]) else None
  }

  function Stored(w: World, f: Family, s: Scope, record: Record): World {
    w.(redis := w.redis.(records := w.redis.records[CacheKey(f, s, GenerationOf(w.db, f)) := record]))
  }

  function Resolved(w: World, f: Family, s: Scope, faults: Faults): (World, Option<Record>)
    requires s.Full?
  {
    var w1 := w.(redis := WithGeneration(w.redis, f, GenerationOf(w.db, f), faults.readGeneration, faults.writeGeneration));
    var hit := Cached(w1, f, s, faults.readRecord);
    if hit.Some? then (w1, hit)
    else
      var record := Walked(w.db, f, s);
      (if record.Some? && faults.writeRecord then Stored(w1, f, s, record.value) else w1, record)
  }

  function Next(w: World, st: Step): World {
    match st
    case CreateDraft(f, s, content) =>
      if content == "" then w
      else w.(db := w.db.(prompts := w.db.prompts + [Prompt(f, s, MaxVersion(w.db.prompts, f, s) + 1, content, Draft)]))
    case UpdateDraft(id, content) =>
      if id < |w.db.prompts| && w.db.prompts[id].status.Draft? && content != ""
      then w.(db := w.db.(prompts := w.db.prompts[id := w.db.prompts[id].(content := content)]))
      else w
    case Activate(id, requireDraft, published) =>
      if !Activatable(w.db, id, requireDraft) then w
      else
        var db := Activated(w.db, id);
        var f := w.db.prompts[id].family;
        World(db, if published then w.redis.(generations := w.redis.generations[f := GenerationOf(db, f)]) else w.redis)
    case Resolve(f, s, faults) => if s.Full? then Resolved(w, f, s, faults).0 else w
    case Evict(key) => w.(redis := w.redis.(records := map k | k in w.redis.records && k != key :: w.redis.records[k]))
  }

  function Run(w: World, steps: seq<Step>): World
    decreases steps
  {
    if steps == [] then w else Run(Next(w, steps[0]), steps[1..])
  }

  /******* What every step keeps *******/

  predicate SameSlot(p: Prompt, q: Prompt) {
    p.family == q.family && p.scope == q.scope
  }

  predicate OneActive(db: Db) {
    forall i, j | 0 <= i < |db.prompts| && 0 <= j < |db.prompts| && SameSlot(db.prompts[i], db.prompts[j])
                  && db.prompts[i].status.Active? && db.prompts[j].status.Active? :: i == j
  }

  predicate VersionsUnique(db: Db) {
    forall i, j | 0 <= i < |db.prompts| && 0 <= j < |db.prompts| && SameSlot(db.prompts[i], db.prompts[j])
                  && db.prompts[i].version == db.prompts[j].version :: i == j
  }

  // No record is ahead of its family, and those of the current generation are the walk.
  predicate RecordSound(db: Db, key: CacheKey, record: Record) {
    && key.scope.Full? && key.generation <= GenerationOf(db, key.family)
    && (key.generation == GenerationOf(db, key.family) ==> Walked(db, key.family, key.scope) == Some(record))
  }

  predicate Coherent(w: World) {
    forall key | key in w.redis.records :: RecordSound(w.db, key, w.redis.records[key])
  }

  predicate Sound(w: World) {
    OneActive(w.db) && VersionsUnique(w.db) && Coherent(w)
  }

  lemma FindSame(a: Db, b: Db, f: Family, s: Scope)
    requires |a.prompts| <= |b.prompts|
    requires forall i | 0 <= i < |a.prompts| :: IsActive(f, s)(a.prompts[i]) == IsActive(f, s)(b.prompts[i])
    requires forall i | |a.prompts| <= i < |b.prompts| :: !IsActive(f, s)(b.prompts[i])
    requires OneActive(a) && OneActive(b)
    ensures FindActive(a, f, s) == FindActive(b, f, s)
  {
    var x, y := FindActive(a, f, s), FindActive(b, f, s);
    if x.Some? { assert IsActive(f, s)(b.prompts[x.value]); }
    if y.Some? { assert y.value < |a.prompts| && IsActive(f, s)(a.prompts[y.value]); }
  }

  // A step that touches no active row of the family leaves every walk of it alone.
  lemma WalkSame(a: Db, b: Db, f: Family, s: Scope)
    requires s.Full? && OneActive(a) && OneActive(b) && |a.prompts| <= |b.prompts|
    requires forall i | 0 <= i < |a.prompts| && (a.prompts[i].status.Active? || b.prompts[i].status.Active?)
                        && (a.prompts[i].family == f || b.prompts[i].family == f) :: a.prompts[i] == b.prompts[i]
    requires forall i | |a.prompts| <= i < |b.prompts| :: !b.prompts[i].status.Active?
    ensures Walked(a, f, s) == Walked(b, f, s)
  {
    FindSame(a, b, f, s);
    FindSame(a, b, f, SubjectGlobal(s.subject));
  }

  lemma DraftKeepsSound(w: World, st: Step)
    requires Sound(w) && (st.CreateDraft? || st.UpdateDraft?)
    ensures Sound(Next(w, st))
  {
    var w' := Next(w, st);
    forall key | key in w'.redis.records ensures RecordSound(w'.db, key, w'.redis.records[key]) {
      assert RecordSound(w.db, key, w.redis.records[key]);
      WalkSame(w.db, w'.db, key.family, key.scope);
    }
  }

  lemma ActivationKeepsOneActive(db: Db, id: nat)
    requires OneActive(db) && VersionsUnique(db) && id < |db.prompts|
    ensures OneActive(Activated(db, id)) && VersionsUnique(Activated(db, id))
    ensures |Activated(db, id).prompts| == |db.prompts| && Activated(db, id).prompts[id] == db.prompts[id].(status := Active)
    ensures forall i | 0 <= i < |db.prompts| && db.prompts[i].family != db.prompts[id].family :: Activated(db, id).prompts[i] == db.prompts[i]
  {
    var p := db.prompts[id];
    var hidden := db.prompts[id := p.(status := Retired)];
    var other := First(hidden, IsActive(p.family, p.scope));
    forall i | 0 <= i < |db.prompts| && i != id && SameSlot(db.prompts[i], p) && db.prompts[i].status.Active?
      ensures other == Some(i)
    {
      assert IsActive(p.family, p.scope)(hidden[i]);
      assert hidden[other.value].status.Active? && other.value != id;
      assert SameSlot(db.prompts[i], db.prompts[other.value]);
    }
  }

  /** Every activation strictly raises its family's generation, and leaves no cached record of
      that family current. */
  lemma ActivationRaisesGeneration(w: World, id: nat, requireDraft: bool, published: bool)
    requires Sound(w) && Activatable(w.db, id, requireDraft)
    ensures var w' := Next(w, Activate(id, requireDraft, published));
            var f := w.db.prompts[id].family;
            && GenerationOf(w'.db, f) > GenerationOf(w.db, f)
            && forall key | key in w'.redis.records && key.family == f :: key.generation < GenerationOf(w'.db, f)
  {
    var w' := Next(w, Activate(id, requireDraft, published));
    forall key | key in w'.redis.records && key.family == w.db.prompts[id].family
      ensures key.generation < GenerationOf(w'.db, w.db.prompts[id].family)
    {
      assert RecordSound(w.db, key, w.redis.records[key]);
    }
  }

  lemma ActivationKeepsSound(w: World, id: nat, requireDraft: bool, published: bool)
    requires Sound(w) && Activatable(w.db, id, requireDraft)
    ensures Sound(Next(w, Activate(id, requireDraft, published)))
  {
    var w' := Next(w, Activate(id, requireDraft, published));
    ActivationKeepsOneActive(w.db, id);
    forall key | key in w'.redis.records ensures RecordSound(w'.db, key, w'.redis.records[key]) {
      assert RecordSound(w.db, key, w.redis.records[key]);
      if key.family != w.db.prompts[id].family { WalkSame(w.db, w'.db, key.family, key.scope); }
    }
  }

  lemma ResolveKeepsSound(w: World, f: Family, s: Scope, faults: Faults)
    requires Sound(w) && s.Full?
    ensures Sound(Resolved(w, f, s, faults).0)
  {
    var w' := Resolved(w, f, s, faults).0;
    forall key | key in w'.redis.records ensures RecordSound(w'.db, key, w'.redis.records[key]) {
      if key in w.redis.records { assert RecordSound(w.db, key, w.redis.records[key]); }
    }
  }

  /** At most one active prompt per key, mode and scope, one row per version number, and a
      coherent cache: every step keeps them, whichever Redis commands fail. */
  lemma NextKeepsSound(w: World, st: Step)
    requires Sound(w)
    ensures Sound(Next(w, st))
  {
    match st
    case CreateDraft(_, _, _) => DraftKeepsSound(w, st);
    case UpdateDraft(_, _) => DraftKeepsSound(w, st);
    case Activate(id, requireDraft, published) =>
      if Activatable(w.db, id, requireDraft) { ActivationKeepsSound(w, id, requireDraft, published); }
    case Resolve(f, s, faults) => if s.Full? { ResolveKeepsSound(w, f, s, faults); }
    case Evict(_) =>
  }

  lemma {:induction false} RunKeepsSound(w: World, steps: seq<Step>)
    requires Sound(w)
    ensures Sound(Run(w, steps))
    decreases steps
  {
    if steps != [] {
      NextKeepsSound(w, steps[0]);
      RunKeepsSound(Next(w, steps[0]), steps[1..]);
    }
  }

  /** In every run and under any Redis failures, resolving gives exactly what walking the exact
      scope and then the subject's own through the database gives, hit or miss. */
  lemma ResolveIsTheWalk(w: World, steps: seq<Step>, f: Family, s: Scope, faults: Faults)
    requires Sound(w) && s.Full?
    ensures Resolved(Run(w, steps), f, s, faults).1 == Walked(Run(w, steps).db, f, s)
  {
    RunKeepsSound(w, steps);
    var w' := Run(w, steps);
    var key := CacheKey(f, s, GenerationOf(w'.db, f));
    if key in w'.redis.records { assert RecordSound(w'.db, key, w'.redis.records[key]); }
  }

  /******* A store that comes late *******/

  /** Resolving is not one step in the code: the record is stored under a generation read anew.
      A store that comes late keeps the cache sound exactly when the walk still gives its record. */
  lemma LateStoreExactly(w: World, f: Family, s: Scope, record: Record)
    requires Sound(w) && s.Full?
    ensures Sound(Stored(w, f, s, record)) <==> Walked(w.db, f, s) == Some(record)
  {
    var w' := Stored(w, f, s, record);
    var stored := CacheKey(f, s, GenerationOf(w.db, f));
    forall key | key in w'.redis.records && key != stored ensures RecordSound(w'.db, key, w'.redis.records[key]) {
      assert RecordSound(w.db, key, w.redis.records[key]);
    }
    assert w'.redis.records[stored] == record;
    if Sound(w') { assert RecordSound(w'.db, stored, record); }
  }

  lemma GenerationsOnlyGrow(w: World, st: Step, f: Family)
    requires Sound(w)
    ensures GenerationOf(w.db, f) <= GenerationOf(Next(w, st).db, f)
  {
  }

  lemma QuietStep(w: World, st: Step, f: Family, s: Scope)
    requires Sound(w) && s.Full? && GenerationOf(Next(w, st).db, f) == GenerationOf(w.db, f)
    ensures Walked(Next(w, st).db, f, s) == Walked(w.db, f, s)
  {
    NextKeepsSound(w, st);
    if st.Activate? && Activatable(w.db, st.id, st.requireDraft) { ActivationKeepsOneActive(w.db, st.id); }
    WalkSame(w.db, Next(w, st).db, f, s);
  }

  /** In particular it is safe whenever the family's generation is still the one the walk ran
      under, whatever else happened in between. */
  lemma {:induction false} QuietStoreIsSafe(w: World, steps: seq<Step>, f: Family, s: Scope)
    requires Sound(w) && s.Full?
    ensures GenerationOf(w.db, f) <= GenerationOf(Run(w, steps).db, f)
    ensures GenerationOf(Run(w, steps).db, f) == GenerationOf(w.db, f) ==>
              Walked(Run(w, steps).db, f, s) == Walked(w.db, f, s)
              && (Walked(w.db, f, s).Some? ==> Sound(Stored(Run(w, steps), f, s, Walked(w.db, f, s).value)))
    decreases steps
  {
    RunKeepsSound(w, steps);
    if steps != [] {
      var w' := Next(w, steps[0]);
      NextKeepsSound(w, steps[0]);
      GenerationsOnlyGrow(w, steps[0], f);
      QuietStoreIsSafe(w', steps[1..], f, s);
      if GenerationOf(Run(w, steps).db, f) == GenerationOf(w.db, f) { QuietStep(w, steps[0], f, s); }
    }
    if Walked(Run(w, steps).db, f, s).Some? {
      LateStoreExactly(Run(w, steps), f, s, Walked(Run(w, steps).db, f, s).value);
    }
  }

  /** And it is not safe across an activation: the record of the walk before is then cached under
      the new generation, and the next request is answered with it.  If it was the scope's own
      prompt it is retired by then, else it is the subject's prompt that the new one should hide. */
  lemma LateStoreServesRetired(w: World, id: nat, s: Scope, faults: Faults)
    requires Sound(w) && s.Full? && Activatable(w.db, id, true) && w.db.prompts[id].scope == s && faults.readRecord
    requires var f := w.db.prompts[id].family; Walked(w.db, f, s).Some?
    ensures var f, before := w.db.prompts[id].family, Walked(w.db, w.db.prompts[id].family, s).value;
            var late := Stored(Next(w, Activate(id, true, true)), f, s, before);
            && Resolved(late, f, s, faults).1 == Some(before)
            && Walk(late.db, f, s) == Some(id) && before.id != id && before.id < |late.db.prompts|
            && (if FindActive(w.db, f, s).Some? then late.db.prompts[before.id].status.Retired?
                else late.db.prompts[before.id] == before.prompt && before.prompt.scope == SubjectGlobal(s.subject))
  {
    var w' := Next(w, Activate(id, true, true));
    ActivationKeepsOneActive(w.db, id);
    assert IsActive(w.db.prompts[id].family, s)(w'.db.prompts[id]);
  }

  const EMPTY := World(Db([], map[]), Redis(map[], map[]))

  // Two prompts of one slot: the first is live, the second still a draft.
  function Drafting(f: Family, s: Scope, a: string, b: string): seq<Step> {
    [CreateDraft(f, s, a), Activate(0, true, true), CreateDraft(f, s, b)]
  }

  lemma RunFront(w: World, st: Step, rest: seq<Step>)
    ensures Run(w, [st] + rest) == Run(Next(w, st), rest)
  {
    assert ([st] + rest)[1..] == rest;
  }

  lemma RunOfThree(w: World, a: Step, b: Step, c: Step)
    ensures Run(w, [a, b, c]) == Next(Next(Next(w, a), b), c)
  {
    RunFront(w, a, [b, c]);
    RunFront(Next(w, a), b, [c]);
    RunFront(Next(Next(w, a), b), c, []);
  }

  lemma DraftingDrafts(f: Family, s: Scope, a: string, b: string)
    requires a != "" && b != ""
    ensures Run(EMPTY, Drafting(f, s, a, b)).db == Db([Prompt(f, s, 1, a, Active), Prompt(f, s, 2, b, Draft)], map[f := 2])
  {
    var steps := Drafting(f, s, a, b);
    var w1 := Next(EMPTY, steps[0]);
    assert w1.db == Db([Prompt(f, s, 1, a, Draft)], map[]);
    var w2 := Next(w1, steps[1]);
    assert w2.db == Db([Prompt(f, s, 1, a, Active)], map[f := 2]);
    assert Next(w2, steps[2]).db.prompts == [Prompt(f, s, 1, a, Active), Prompt(f, s, 2, b, Draft)];
    RunOfThree(EMPTY, steps[0], steps[1], steps[2]);
  }

  /** From the empty store: the second prompt is activated between a request's walk and its store,
      and the next request is answered with the first, retired one. */
  lemma RetiredIsServed(f: Family, s: Scope, a: string, b: string, faults: Faults)
    requires s.Full? && a != "" && b != "" && faults.readRecord
    ensures var w := Run(EMPTY, Drafting(f, s, a, b));
            var walked := Record(0, Prompt(f, s, 1, a, Active));
            var late := Stored(Next(w, Activate(1, true, true)), f, s, walked);
            && Walked(w.db, f, s) == Some(walked) && Resolved(late, f, s, faults).1 == Some(walked)
            && |late.db.prompts| == 2 && late.db.prompts[0].status.Retired? && late.db.prompts[1].status.Active?
  {
    var w := Run(EMPTY, Drafting(f, s, a, b));
    DraftingDrafts(f, s, a, b);
    RunKeepsSound(EMPTY, Drafting(f, s, a, b));
    assert IsActive(f, s)(w.db.prompts[0]) && FindActive(w.db, f, s) == Some(0);
    LateStoreServesRetired(w, 1, s, faults);
    ActivationKeepsOneActive(w.db, 1);
  }

  /******* The service *******/

  class PromptService {
    var prompts: seq<Prompt>
    var generations: map<Family, Generation>
    var redisGenerations: map<Family, nat>
    var redisRecords: map<CacheKey, Record>

    ghost function State(): World
      reads this
    {
      World(Db(prompts, generations), Redis(redisGenerations, redisRecords))
    }

    constructor ()
      ensures Sound(State()) && prompts == []
    {
      prompts, generations, redisGenerations, redisRecords := [], map[], map[], map[];
    }

    method CreatePrompt(f: Family, s: Scope, content: string) returns (id: Option<nat>)
      modifies this`prompts
      ensures State() == Next(old(State()), CreateDraft(f, s, content))
      ensures id.Some? ==> id.value < |prompts| && prompts[id.value].status.Draft?
    {
      if content == "" {
        return None;
      }
      var version := MaxVersion(prompts, f, s) + 1;
      id := Some(|prompts|);
      prompts := prompts + [Prompt(f, s, version, content, Draft)];
    }

    method UpdatePrompt(id: nat, content: string) returns (done: bool)
      modifies this`prompts
      ensures State() == Next(old(State()), UpdateDraft(id, content))
    {
      done := id < |prompts| && prompts[id].status == Draft && content != "";
      if done { prompts := prompts[id := prompts[id].(content := content)]; }
    }

    /** _activate_target in its transaction, then the publication of the new generation. */
    method ActivateTarget(id: nat, requireDraft: bool, published: bool) returns (done: bool)
      modifies this
      ensures State() == Next(old(State()), Activate(id, requireDraft, published))
      ensures done <==> Activatable(old(State()).db, id, requireDraft)
    {
      if id >= |prompts| || (prompts[id].status == Draft) != requireDraft {
        return false;
      }
      var target := prompts[id];
      var current := OtherActive(prompts, id);
      if current.Some? && current.value < |prompts| {
        prompts := prompts[current.value := prompts[current.value].(status := Retired)];
      }
      prompts := prompts[id := target.(status := Active)];
      var generation: Generation := if target.family in generations then generations[target.family] + 1 else 2;
      generations := generations[target.family := generation];
      if published { redisGenerations := redisGenerations[target.family := generation]; }
      done := true;
    }

    method CurrentGeneration(f: Family, faults: Faults) returns (generation: Generation)
      modifies this`redisGenerations
      ensures generation == GenerationOf(old(State()).db, f)
      ensures State() == old(State()).(redis := WithGeneration(old(State()).redis, f, generation, faults.readGeneration, faults.writeGeneration))
    {
      var cached: Option<nat> := None;
      if faults.readGeneration && f in redisGenerations {
        cached := Some(if redisGenerations[f] >= 1 then redisGenerations[f] else 1);
      }
      generation := if f in generations then generations[f] else 1;
      if cached != Some(generation) && faults.writeGeneration {
        redisGenerations := redisGenerations[f := generation];
      }
    }

    /** resolve_active with nothing in between: the cache, else the scopes in order. */
    method ResolveActive(f: Family, s: Scope, faults: Faults) returns (r: Option<Record>)
      requires s.Full?
      modifies this
      ensures (State(), r) == Resolved(old(State()), f, s, faults)
      ensures Sound(old(State())) ==> r == Walked(old(State()).db, f, s)
    {
      ghost var before := State();
      assert Sound(before) ==> Resolved(before, f, s, faults).1 == Walked(before.db, f, s) by {
        if Sound(before) {
          assert Run(before, []) == before;
          ResolveIsTheWalk(before, [], f, s, faults);
        }
      }
      var generation := CurrentGeneration(f, faults);
      var key := CacheKey(f, s, generation);
      if faults.readRecord && key in redisRecords {
        return Some(redisRecords[key]);
      }
      var chain := [s, SubjectGlobal(s.subject)];
      var k := 0;
      while k < |chain|
        invariant k <= 2 && chain == [s, SubjectGlobal(s.subject)]
        invariant prompts == before.db.prompts && generations == before.db.generations
        invariant State() == before.(redis := WithGeneration(before.redis, f, generation, faults.readGeneration, faults.writeGeneration))
        invariant k > 0 ==> FindActive(before.db, f, s).None?
        invariant k > 1 ==> FindActive(before.db, f, SubjectGlobal(s.subject)).None?
      {
        var row := First(prompts, IsActive(f, chain[k]));
        if row.Some? {
          r := Some(Record(row.value, prompts[row.value]));
          if faults.writeRecord { redisRecords := redisRecords[key := r.value]; }
          return;
        }
        k := k + 1;
      }
      r := None;
    }
  }
}
