/** A confirmation of a corpus version as the separate statements it is: the recount, the two
    reads of the report, the transition to qa_ready, the search for the live version and the
    promotion.  Any transaction, and any statement of another confirmation, can come between. */
module ConfirmRace {
  import opened Wrappers
  import opened Sequences
  import opened CorpusLifecycle
  import opened CorpusRuns

  // How far a confirmation has come, with what it has read.
  datatype Stage = Counted | Seen(row: Version) | Accepted | Ready | Found(live: nat)
  datatype Confirmation = Confirmation(id: nat, promote: Option<string>, stage: Stage)

  datatype World = World(s: Store, jobs: map<nat, Confirmation>)

  datatype Move =
    | On(st: Step)
    | Recount(j: nat, id: nat, promote: Option<string>)
    | ReadRow(j: nat)
    | ReadRows(j: nat, settled: bool)
    | MakeReady(j: nat)
    | FindLive(j: nat)
    | Promote(j: nat)
    | Stop(j: nat)

  /******* The statements *******/

  // The report joins the version's row, read first, with the counts of its rows now.
  predicate Reported(row: Version, now: Version) {
    row.status.Building? && Complete(now.(config := row.config, counts := row.counts))
  }

  // Version ids are random: no new version takes the id of one that is being confirmed.
  predicate Reuses(w: World, st: Step) {
    exists j | j in w.jobs ::
      (st.NewBuilding? && st.newId == w.jobs[j].id) || (st.CreateDraft? && st.newId == w.jobs[j].id)
  }

  function Ended(w: World, j: nat): World {
    w.(jobs := w.jobs - {j})
  }

  function To(w: World, j: nat, stage: Stage): World
    requires j in w.jobs
  {
    w.(jobs := w.jobs[j := w.jobs[j].(stage := stage)])
  }

  function Readied(w: World, j: nat): World
    requires j in w.jobs
  {
    var id := w.jobs[j].id;
    if id in w.s.versions && w.s.versions[id].status.Building?
    then To(w.(s := Put(w.s, id, w.s.versions[id].(status := QaReady))), j, Ready)
    else Ended(w, j)
  }

  ghost function Searched(w: World, j: nat): World
    requires j in w.jobs
  {
    var c := w.jobs[j];
    if c.promote.None? || c.id !in w.s.versions || LiveOf(w.s, c.id).None? then Ended(w, j)
    else To(w, j, Found(LiveOf(w.s, c.id).value))
  }

  // promote_chapter_from_temp_to_active looks at neither the status nor the rows of the
  // temporary version.
  predicate Promotes(w: World, j: nat) {
    && j in w.jobs && w.jobs[j].stage.Found? && w.jobs[j].promote.Some?
    && w.jobs[j].id in w.s.versions && w.jobs[j].stage.live in w.s.versions
    && Promotable(w.s.versions[w.jobs[j].id], w.s.versions[w.jobs[j].stage.live], w.jobs[j].promote.value)
  }

  ghost function After(w: World, m: Move): World {
    match m
    case On(st) => if Reuses(w, st) then w else w.(s := Next(w.s, st).0)
    case Recount(j, id, promote) =>
      if j in w.jobs || id !in w.s.versions then w
      else World(Put(w.s, id, Recounted(w.s.versions[id])), w.jobs[j := Confirmation(id, promote, Counted)])
    case ReadRow(j) =>
      if j !in w.jobs || !w.jobs[j].stage.Counted? then w
      else if w.jobs[j].id !in w.s.versions then Ended(w, j)
      else To(w, j, Seen(w.s.versions[w.jobs[j].id]))
    case ReadRows(j, settled) =>
      if j !in w.jobs || !w.jobs[j].stage.Seen? then w
      else if w.jobs[j].id in w.s.versions && Reported(w.jobs[j].stage.row, w.s.versions[w.jobs[j].id]) && settled
      then To(w, j, Accepted) else Ended(w, j)
    case MakeReady(j) => if j in w.jobs && w.jobs[j].stage.Accepted? then Readied(w, j) else w
    case FindLive(j) => if j in w.jobs && w.jobs[j].stage.Ready? then Searched(w, j) else w
    case Promote(j) =>
      if j !in w.jobs || !w.jobs[j].stage.Found? then w
      else if Promotes(w, j)
      then Ended(w.(s := WithPromotion(w.s, w.jobs[j].id, w.jobs[j].stage.live, w.jobs[j].promote.value)), j)
      else Ended(w, j)
    case Stop(j) => Ended(w, j)
  }

  // Runs are read from their last move.
  ghost function Play(w: World, moves: seq<Move>): World {
    if moves == [] then w else After(Play(w, moves[..|moves| - 1]), moves[|moves| - 1])
  }

  /******* An undisturbed confirmation *******/

  // A whole confirmation: the statements that are not reached find no confirmation to go on with.
  function Statements(j: nat, id: nat, promote: Option<string>, settled: bool): seq<Move> {
    [Recount(j, id, promote), ReadRow(j), ReadRows(j, settled), MakeReady(j), FindLive(j), Promote(j)]
  }

  // One more move of a run, to a world that is known.
  lemma PlayTo(w: World, moves: seq<Move>, m: Move, w1: World, w2: World)
    requires Play(w, moves) == w1 && After(w1, m) == w2
    ensures Play(w, moves + [m]) == w2
  {
    assert (moves + [m])[..|moves|] == moves;
  }

  lemma ThreeMoves(w: World, a: Move, b: Move, c: Move, w1: World, w2: World, w3: World)
    requires After(w, a) == w1 && After(w1, b) == w2 && After(w2, c) == w3
    ensures Play(w, [a, b, c]) == w3
  {
    PlayTo(w, [], a, w, w1);
    PlayTo(w, [] + [a], b, w1, w2);
    PlayTo(w, [] + [a] + [b], c, w2, w3);
    assert [] + [a] + [b] + [c] == [a, b, c];
  }

  lemma {:induction false} PlayConcat(w: World, moves: seq<Move>, more: seq<Move>)
    ensures Play(w, moves + more) == Play(Play(w, moves), more)
  {
    if more == [] {
      assert moves + more == moves;
    } else {
      var n := |more| - 1;
      assert (moves + more)[..|moves + more| - 1] == moves + more[..n] && (moves + more)[|moves + more| - 1] == more[n];
      PlayConcat(w, moves, more[..n]);
    }
  }

  lemma LiveOfStays(s: Store, id: nat, v: Version)
    requires OneActive(s) && id in s.versions && v.corpus == s.versions[id].corpus
    ensures LiveOf(Put(s, id, v), id) == LiveOf(s, id)
  {
    var s' := Put(s, id, v);
    var before, after := LiveOf(s, id), LiveOf(s', id);
    if before.Some? { assert IsActiveOf(s', before.value, v.corpus); }
    if after.Some? { assert IsActiveOf(s, after.value, v.corpus); }
  }

  // A report of an unchanged version.
  lemma ReadsAgain(w: World, j: nat, settled: bool, v: Version)
    requires j in w.jobs && w.jobs[j].stage == Seen(v) && w.jobs[j].id in w.s.versions && w.s.versions[w.jobs[j].id] == v
    ensures After(w, ReadRows(j, settled)) == if v.status.Building? && Complete(v) && settled then To(w, j, Accepted) else Ended(w, j)
  {
    assert v.(config := v.config, counts := v.counts) == v;
  }

  // The recount and the report.
  lemma Reports(w: World, j: nat, id: nat, promote: Option<string>, settled: bool)
    requires j !in w.jobs && id in w.s.versions
    ensures var v := Recounted(w.s.versions[id]);
            Play(w, [Recount(j, id, promote), ReadRow(j), ReadRows(j, settled)])
            == if v.status.Building? && Complete(v) && settled
               then World(Put(w.s, id, v), w.jobs[j := Confirmation(id, promote, Accepted)])
               else World(Put(w.s, id, v), w.jobs)
  {
    var s, v := w.s, Recounted(w.s.versions[id]);
    var w1 := World(Put(s, id, v), w.jobs[j := Confirmation(id, promote, Counted)]);
    var w2 := World(Put(s, id, v), w.jobs[j := Confirmation(id, promote, Seen(v))]);
    assert After(w1, ReadRow(j)) == w2 by { assert To(w1, j, Seen(v)).jobs == w2.jobs; }
    ReadsAgain(w2, j, settled, v);
    var w3 := After(w2, ReadRows(j, settled));
    assert w2.jobs - {j} == w.jobs;
    assert To(w2, j, Accepted).jobs == w.jobs[j := Confirmation(id, promote, Accepted)];
    ThreeMoves(w, Recount(j, id, promote), ReadRow(j), ReadRows(j, settled), w1, w2, w3);
  }

  lemma FoundIs(w: World, w': World, j: nat)
    requires j in w.jobs && w.jobs[j].stage.Ready? && w.jobs[j].promote.Some? && w.jobs[j].id in w.s.versions
    requires LiveOf(w.s, w.jobs[j].id).Some?
    requires w' == w.(jobs := w.jobs[j := w.jobs[j].(stage := Found(LiveOf(w.s, w.jobs[j].id).value))])
    ensures After(w, FindLive(j)) == w'
  {
  }

  // From the transition on.
  lemma ReadiedIsConfirmed(w: World, j: nat, s: Store, settled: bool)
    requires j in w.jobs && w.jobs[j].stage.Accepted? && w.jobs[j].id in s.versions && OneActive(s)
    requires var v := Recounted(s.versions[w.jobs[j].id]);
             w.s == Put(s, w.jobs[j].id, v) && v.status.Building? && Complete(v) && settled
    ensures Play(w, [MakeReady(j), FindLive(j), Promote(j)])
            == World(Confirmed(s, w.jobs[j].id, settled, w.jobs[j].promote, LiveOf(s, w.jobs[j].id)).0, w.jobs - {j})
  {
    var c := w.jobs[j];
    var v := Recounted(s.versions[c.id]);
    var ready := Put(s, c.id, v.(status := QaReady));
    LiveOfStays(s, c.id, v.(status := QaReady));
    var w1 := World(ready, w.jobs[j := c.(stage := Ready)]);
    assert After(w, MakeReady(j)) == w1 by { assert Put(w.s, c.id, v.(status := QaReady)) == ready; }
    assert w1.jobs - {j} == w.jobs - {j};
    if c.promote.Some? && LiveOf(ready, c.id).Some? {
      var w2 := World(ready, w.jobs[j := c.(stage := Found(LiveOf(ready, c.id).value))]);
      assert w1.jobs[j := w2.jobs[j]] == w2.jobs;
      FoundIs(w1, w2, j);
      assert w2.jobs - {j} == w.jobs - {j};
      ThreeMoves(w, MakeReady(j), FindLive(j), Promote(j), w1, w2, After(w2, Promote(j)));
    } else {
      ThreeMoves(w, MakeReady(j), FindLive(j), Promote(j), w1, Ended(w1, j), Ended(w1, j));
    }
  }

  lemma EndedIsLeftAlone(w: World, j: nat)
    requires j !in w.jobs
    ensures Play(w, [MakeReady(j), FindLive(j), Promote(j)]) == w
  {
    ThreeMoves(w, MakeReady(j), FindLive(j), Promote(j), w, w, w);
  }

  lemma RestIsConfirmed(w: World, j: nat, id: nat, promote: Option<string>, settled: bool, reported: World)
    requires j !in w.jobs && id in w.s.versions && OneActive(w.s)
    requires var v := Recounted(w.s.versions[id]);
             reported == if v.status.Building? && Complete(v) && settled
                         then World(Put(w.s, id, v), w.jobs[j := Confirmation(id, promote, Accepted)])
                         else World(Put(w.s, id, v), w.jobs)
    ensures Play(reported, [MakeReady(j), FindLive(j), Promote(j)])
            == World(Confirmed(w.s, id, settled, promote, LiveOf(w.s, id)).0, w.jobs)
  {
    if j in reported.jobs {
      ReadiedIsConfirmed(reported, j, w.s, settled);
      assert reported.jobs - {j} == w.jobs;
    } else {
      EndedIsLeftAlone(reported, j);
    }
  }

  /** The statements of a confirmation that nothing disturbs are the one step of the lifecycle. */
  lemma UndisturbedIsConfirm(w: World, j: nat, id: nat, promote: Option<string>, settled: bool)
    requires j !in w.jobs && id in w.s.versions && OneActive(w.s)
    ensures Play(w, Statements(j, id, promote, settled)) == w.(s := Next(w.s, Confirm(id, settled, promote)).0)
  {
    var report, rest := [Recount(j, id, promote), ReadRow(j), ReadRows(j, settled)], [MakeReady(j), FindLive(j), Promote(j)];
    assert Statements(j, id, promote, settled) == report + rest;
    PlayConcat(w, report, rest);
    Reports(w, j, id, promote, settled);
    RestIsConfirmed(w, j, id, promote, settled, Play(w, report));
    ConfirmIs(w.s, id, settled, promote, LiveOf(w.s, id), Confirmed(w.s, id, settled, promote, LiveOf(w.s, id)).0);
  }

  /******* The live version *******/

  // A found version is another one.
  predicate FoundOther(w: World) {
    forall j | j in w.jobs && w.jobs[j].stage.Found? :: w.jobs[j].stage.live != w.jobs[j].id
  }

  predicate Sound(w: World) {
    LiveSound(w.s) && FoundOther(w)
  }

  // A promotion of a version that was changed since its report: some row has no valid vector.
  predicate PromotesUnembedded(w: World, m: Move) {
    && m.Promote? && Promotes(w, m.j)
    && !FullyEmbedded(w.s.versions[w.jobs[m.j].id].chunks, w.s.versions[w.jobs[m.j].id].config)
  }

  predicate Spoils(w: World, m: Move) {
    (m.On? && !Reuses(w, m.st) && SpoilsLive(w.s, m.st)) || PromotesUnembedded(w, m)
  }

  lemma MoveKeepsOthers(w: World, m: Move)
    requires FoundOther(w)
    ensures FoundOther(After(w, m))
  {
  }

  lemma PromotionExactly(s: Store, temp: nat, live: nat, chapter: string)
    requires LiveSound(s) && temp in s.versions && live in s.versions && temp != live
    requires Promotable(s.versions[temp], s.versions[live], chapter)
    ensures LiveSound(WithPromotion(s, temp, live, chapter)) <==> FullyEmbedded(s.versions[temp].chunks, s.versions[temp].config)
  {
    PromotionKeepsComplete(s.versions[temp], s.versions[live], chapter);
    var s' := WithPromotion(s, temp, live, chapter);
    assert s'.versions[live] == Promoted(s.versions[temp], s.versions[live], chapter) && s'.versions[live].status.Active?;
  }

  lemma RecountKeepsLive(s: Store, id: nat)
    requires LiveSound(s) && id in s.versions
    ensures LiveSound(Put(s, id, Recounted(s.versions[id])))
  {
    var v := Recounted(s.versions[id]);
    if v.status.Active? {
      CompleteExactly(s.versions[id]);
      assert Put(s, id, v) == s;
    } else {
      OffLineUpdateKeepsLive(s, Put(s, id, v), id, v);
    }
  }

  lemma ReadyingKeepsLive(w: World, j: nat)
    requires LiveSound(w.s) && j in w.jobs
    ensures LiveSound(Readied(w, j).s)
  {
    var id := w.jobs[j].id;
    if id in w.s.versions && w.s.versions[id].status.Building? {
      OffLineUpdateKeepsLive(w.s, Readied(w, j).s, id, w.s.versions[id].(status := QaReady));
    }
  }

  /** With the statements of any number of confirmations interleaved: the live versions stay sound
      in every move but two, the failure mark on a live row and the promotion of a version of
      which some row has, by then, no valid vector. */
  lemma MoveKeepsLiveExactly(w: World, m: Move)
    requires Sound(w)
    ensures LiveSound(After(w, m).s) <==> !Spoils(w, m)
  {
    match m
    case On(st) => StepKeepsLiveExactly(w.s, st);
    case Recount(j, id, promote) => if id in w.s.versions { RecountKeepsLive(w.s, id); }
    case MakeReady(j) => if j in w.jobs { ReadyingKeepsLive(w, j); }
    case Promote(j) =>
      if Promotes(w, j) {
        PromotionExactly(w.s, w.jobs[j].id, w.jobs[j].stage.live, w.jobs[j].promote.value);
      }
    case _ =>
  }

  /** And so over runs. */
  lemma {:induction false} RunKeepsLiveExactly(w: World, moves: seq<Move>)
    requires Sound(w)
    ensures (forall i | 0 <= i <= |moves| :: LiveSound(Play(w, moves[..i]).s)) <==>
            (forall i | 0 <= i < |moves| :: !Spoils(Play(w, moves[..i]), moves[i]))
  {
    assert forall i | 0 <= i < |moves| :: moves[..i + 1][..|moves[..i + 1]| - 1] == moves[..i];
    if forall i | 0 <= i <= |moves| :: LiveSound(Play(w, moves[..i]).s) {
      forall i | 0 <= i < |moves| ensures !Spoils(Play(w, moves[..i]), moves[i]) {
        RunKeepsOthers(w, moves[..i]);
        MoveKeepsLiveExactly(Play(w, moves[..i]), moves[i]);
        assert LiveSound(Play(w, moves[..i + 1]).s);
      }
    }
    if forall i | 0 <= i < |moves| :: !Spoils(Play(w, moves[..i]), moves[i]) {
      forall i: nat | i <= |moves| ensures LiveSound(Play(w, moves[..i]).s) { UnspoiledMoves(w, moves, i); }
    }
  }

  lemma {:induction false} RunKeepsOthers(w: World, moves: seq<Move>)
    requires FoundOther(w)
    ensures FoundOther(Play(w, moves))
  {
    if moves != [] {
      RunKeepsOthers(w, moves[..|moves| - 1]);
      MoveKeepsOthers(Play(w, moves[..|moves| - 1]), moves[|moves| - 1]);
    }
  }

  lemma {:induction false} UnspoiledMoves(w: World, moves: seq<Move>, n: nat)
    requires Sound(w) && n <= |moves|
    requires forall i | 0 <= i < |moves| :: !Spoils(Play(w, moves[..i]), moves[i])
    ensures LiveSound(Play(w, moves[..n]).s)
  {
    if n > 0 {
      UnspoiledMoves(w, moves, n - 1);
      RunKeepsOthers(w, moves[..n - 1]);
      assert moves[..n][..n - 1] == moves[..n - 1];
      MoveKeepsLiveExactly(Play(w, moves[..n - 1]), moves[n - 1]);
    }
  }

  /******* When a promotion comes too late *******/

  // The writes that can take a valid vector from a version, or add a row without one.
  predicate Unembeds(st: Step, id: nat) {
    match st
    case ReplaceDocument(i, _, _) => i == id
    case EditQuestion(i, _, _) => i == id
    case EditVisual(i, _, _, _) => i == id
    case MarkFailed(i, _, _) => i == id
    case _ => false
  }

  predicate Passed(c: Confirmation) {
    c.stage.Accepted? || c.stage.Ready? || c.stage.Found?
  }

  // Such a write on a version whose report has been accepted.
  predicate Overtakes(w: World, m: Move) {
    m.On? && exists j | j in w.jobs :: Passed(w.jobs[j]) && Unembeds(m.st, w.jobs[j].id)
  }

  predicate FullIn(s: Store, id: nat) {
    id in s.versions ==> FullyEmbedded(s.versions[id].chunks, s.versions[id].config)
  }

  // What a confirmation has read about its version still holds.
  predicate StillHolds(s: Store, c: Confirmation) {
    && (c.stage.Seen? && c.id in s.versions ==> s.versions[c.id].config == c.stage.row.config)
    && (Passed(c) ==> FullIn(s, c.id))
  }

  predicate Checked(w: World) {
    forall j | j in w.jobs :: StillHolds(w.s, w.jobs[j])
  }

  predicate RowEmbedded(k: Chunk, c: Config) {
    ValidFor(k.emb, c) && forall q | q in k.questions :: ValidFor(q.emb, c)
  }

  lemma {:induction false} FullRowByRow(chunks: seq<Chunk>, c: Config)
    ensures FullyEmbedded(chunks, c) <==> forall k | k in chunks :: RowEmbedded(k, c)
  {
    if chunks != [] {
      var front, last := chunks[..|chunks| - 1], chunks[|chunks| - 1];
      FullRowByRow(front, c);
      assert chunks == front + [last] && last in chunks;
      assert FullyEmbedded(chunks, c) <==> FullyEmbedded(front, c) && RowEmbedded(last, c);
    }
  }

  lemma WriteKeepsFull(v: Version, k: nat, q: Option<nat>, input: Input)
    requires RowExists(v, k, q) && FullyEmbedded(v.chunks, v.config) && v.config.dim == VECTOR_DIMENSIONS
    ensures FullyEmbedded(WithEmbedding(v, k, q, EmbeddedAs(v.config, input)).chunks, v.config)
  {
    FullRowByRow(v.chunks, v.config);
    assert v.chunks[k] in v.chunks;
    FullRowByRow(WithEmbedding(v, k, q, EmbeddedAs(v.config, input)).chunks, v.config);
  }

  lemma ConfirmKeepsRows(s: Store, i: nat, live: Option<nat>, promote: Option<string>, s': Store, id: nat)
    requires i in s.versions && (live.Some? ==> live.value != i && live.value in s.versions && s.versions[live.value].status.Active?)
    requires ConfirmsTo(s, i, live, promote, s') && id in s.versions && id in s'.versions
    ensures s'.versions[id].config == s.versions[id].config
    ensures s'.versions[id].chunks == s.versions[id].chunks || s'.versions[id].status.Active?
  {
  }

  lemma StepKeepsConfig(s: Store, st: Step, id: nat)
    requires id in s.versions && id in Next(s, st).0.versions
    ensures Next(s, st).0.versions[id].config == s.versions[id].config
  {
    if st.Confirm? && st.id in s.versions {
      ConfirmOutcome(s, st.id, st.settled, st.promote);
      ConfirmKeepsRows(s, st.id, LiveOf(s, st.id), st.promote, Next(s, st).0, id);
    }
  }

  lemma StepKeepsFull(s: Store, st: Step, id: nat)
    requires LiveSound(s) && id in s.versions && FullIn(s, id) && !Unembeds(st, id)
    ensures FullIn(Next(s, st).0, id)
  {
    var s' := Next(s, st).0;
    if id in s'.versions {
      match st
      case WriteEmbedding(i, k, q, config, input) =>
        if i == id && Writable(s, i, k, q, config) { WriteKeepsFull(s.versions[i], k, q, input); }
      case Confirm(i, settled, promote) =>
        if i in s.versions {
          StepKeepsLiveExactly(s, st);
          ConfirmOutcome(s, i, settled, promote);
          ConfirmKeepsRows(s, i, LiveOf(s, i), promote, s', id);
          StepKeepsConfig(s, st, id);
          CompleteExactly(s'.versions[id]);
        }
      case DeleteChapter(i, _) =>
        StepKeepsLiveExactly(s, st);
        CompleteExactly(s'.versions[id]);
      case _ =>
    }
  }

  lemma StepHolds(s: Store, st: Step, c: Confirmation)
    requires LiveSound(s) && StillHolds(s, c) && (Passed(c) ==> !Unembeds(st, c.id))
    requires !(st.NewBuilding? && st.newId == c.id) && !(st.CreateDraft? && st.newId == c.id)
    ensures StillHolds(Next(s, st).0, c)
  {
    var s' := Next(s, st).0;
    if c.id in s.versions {
      if c.id in s'.versions { StepKeepsConfig(s, st, c.id); }
      if Passed(c) { StepKeepsFull(s, st, c.id); }
    } else {
      NoNewVersion(s, st, c.id);
    }
  }

  lemma NoNewVersion(s: Store, st: Step, id: nat)
    requires id !in s.versions && !(st.NewBuilding? && st.newId == id) && !(st.CreateDraft? && st.newId == id)
    ensures id !in Next(s, st).0.versions
  {
    if st.Confirm? && st.id in s.versions { ConfirmOutcome(s, st.id, st.settled, st.promote); }
  }

  lemma UpdateHolds(s: Store, id: nat, v: Version, c: Confirmation)
    requires StillHolds(s, c) && id in s.versions
    requires v.chunks == s.versions[id].chunks && v.config == s.versions[id].config
    ensures StillHolds(Put(s, id, v), c)
  {
  }

  lemma PromotionHolds(s: Store, temp: nat, live: nat, chapter: string, c: Confirmation)
    requires StillHolds(s, c) && temp in s.versions && live in s.versions && temp != live && s.versions[live].status.Active?
    requires LiveSound(WithPromotion(s, temp, live, chapter))
    ensures StillHolds(WithPromotion(s, temp, live, chapter), c)
  {
    var s' := WithPromotion(s, temp, live, chapter);
    assert s'.versions[live].status.Active? && s'.versions[live].config == s.versions[live].config;
    CompleteExactly(s'.versions[live]);
  }

  lemma AcceptanceHolds(s: Store, c: Confirmation)
    requires StillHolds(s, c) && c.stage.Seen? && c.id in s.versions && Reported(c.stage.row, s.versions[c.id])
    ensures StillHolds(s, c.(stage := Accepted))
  {
    CompleteExactly(s.versions[c.id].(config := c.stage.row.config, counts := c.stage.row.counts));
  }

  lemma OnHolds(w: World, st: Step)
    requires LiveSound(w.s) && Checked(w) && !Overtakes(w, On(st)) && !Reuses(w, st)
    ensures Checked(w.(s := Next(w.s, st).0))
  {
    forall j | j in w.jobs ensures StillHolds(Next(w.s, st).0, w.jobs[j]) { StepHolds(w.s, st, w.jobs[j]); }
  }

  lemma PromoteHolds(w: World, j: nat)
    requires Sound(w) && Checked(w) && Promotes(w, j)
    ensures LiveSound(After(w, Promote(j)).s) && Checked(After(w, Promote(j)))
  {
    var c := w.jobs[j];
    assert StillHolds(w.s, c) && FullIn(w.s, c.id);
    PromotionExactly(w.s, c.id, c.stage.live, c.promote.value);
    forall i | i in w.jobs ensures StillHolds(WithPromotion(w.s, c.id, c.stage.live, c.promote.value), w.jobs[i]) {
      PromotionHolds(w.s, c.id, c.stage.live, c.promote.value, w.jobs[i]);
    }
  }

  lemma RecountHolds(w: World, j: nat, id: nat, promote: Option<string>)
    requires Checked(w)
    ensures Checked(After(w, Recount(j, id, promote)))
  {
    if j !in w.jobs && id in w.s.versions {
      var s' := Put(w.s, id, Recounted(w.s.versions[id]));
      forall i | i in w.jobs ensures StillHolds(s', w.jobs[i]) { UpdateHolds(w.s, id, Recounted(w.s.versions[id]), w.jobs[i]); }
    }
  }

  lemma ReadyHolds(w: World, j: nat)
    requires Checked(w)
    ensures Checked(After(w, MakeReady(j)))
  {
    if j in w.jobs && w.jobs[j].stage.Accepted? {
      var id := w.jobs[j].id;
      assert StillHolds(w.s, w.jobs[j]);
      if id in w.s.versions && w.s.versions[id].status.Building? {
        var v := w.s.versions[id].(status := QaReady);
        forall i | i in w.jobs ensures StillHolds(Put(w.s, id, v), w.jobs[i]) { UpdateHolds(w.s, id, v, w.jobs[i]); }
      }
    }
  }

  lemma ReportHolds(w: World, j: nat, settled: bool)
    requires Checked(w)
    ensures Checked(After(w, ReadRows(j, settled)))
  {
    if j in w.jobs && w.jobs[j].stage.Seen? {
      var c := w.jobs[j];
      assert StillHolds(w.s, c);
      if c.id in w.s.versions && Reported(c.stage.row, w.s.versions[c.id]) && settled { AcceptanceHolds(w.s, c); }
    }
  }

  lemma MoveHolds(w: World, m: Move)
    requires Sound(w) && Checked(w) && !Overtakes(w, m)
    requires m.On? ==> !SpoilsLive(w.s, m.st)
    ensures Sound(After(w, m)) && Checked(After(w, m))
  {
    MoveKeepsOthers(w, m);
    if m.Promote? && Promotes(w, m.j) {
      PromoteHolds(w, m.j);
    } else {
      MoveKeepsLiveExactly(w, m);
      match m
      case On(st) => if !Reuses(w, st) { OnHolds(w, st); }
      case Recount(j, id, promote) => RecountHolds(w, j, id, promote);
      case ReadRows(j, settled) => ReportHolds(w, j, settled);
      case MakeReady(j) => ReadyHolds(w, j);
      case _ => RestHolds(w, m);
    }
  }

  lemma RestHolds(w: World, m: Move)
    requires Checked(w) && (m.ReadRow? || m.FindLive? || m.Stop? || (m.Promote? && !Promotes(w, m.j)))
    ensures Checked(After(w, m))
  {
    if m.j in w.jobs { assert StillHolds(w.s, w.jobs[m.j]); }
  }

  /** A promotion only ever comes too late when an edit, an import or a failure mark hit the version
      after its report was accepted: a run in which none does, and in which no failure mark hits a
      live row, keeps every live version sound. */
  lemma {:induction false} UnovertakenRunsStaySound(w: World, moves: seq<Move>)
    requires Sound(w) && Checked(w)
    requires forall i | 0 <= i < |moves| :: !Overtakes(Play(w, moves[..i]), moves[i])
    requires forall i | 0 <= i < |moves| :: moves[i].On? ==> !SpoilsLive(Play(w, moves[..i]).s, moves[i].st)
    ensures Sound(Play(w, moves)) && Checked(Play(w, moves))
  {
    if moves != [] {
      var n := |moves| - 1;
      assert forall i | 0 <= i < n :: moves[..n][..i] == moves[..i];
      UnovertakenRunsStaySound(w, moves[..n]);
      MoveHolds(Play(w, moves[..n]), moves[n]);
    }
  }

  /******* A run *******/

  const ADDED := AddQuestion("x")
  const BEGINNING := PUBLISH + Import(1, DocOf("2"), "")
  const REPORTED := [Recount(0, 1, Some("a")), ReadRow(0), ReadRows(0, true)]
  const EDITED_SINCE := [MakeReady(0), On(EditQuestion(1, 0, ADDED)), FindLive(0)]

  function Confirming(stage: Stage): map<nat, Confirmation> {
    map[0 := Confirmation(1, Some("a"), stage)]
  }

  function WithOther(v: Version): Store {
    Store(map[0 := LIVE, 1 := v], [Approval(0, true)])
  }

  function Other(status: Status, embedded: nat): Version {
    Book(status, DocOf("2"), "", GOOD, GOOD, embedded)
  }

  // The temporary version with the question that was added to it since its report.
  function Grown(): Version {
    var chunks := REVISED.chunks;
    Recounted(REVISED.(status := Building, chunks := chunks[0 := chunks[0].(questions := [Question("x", UNEMBEDDED)])]))
  }

  lemma OtherImported()
    ensures Run(EMPTY, BEGINNING) == WithOther(Other(Building, 0))
  {
    PublishPublishes();
    Imports(EMPTY, PUBLISH, 1, DocOf("2"), "");
    assert Put(PUBLISHED, 1, Other(Building, 0)) == WithOther(Other(Building, 0));
  }

  lemma OtherReported(w: World)
    requires w == World(WithOther(Other(Building, 0)), map[])
    ensures Play(w, REPORTED) == World(WithOther(Other(Building, 2)), Confirming(Accepted))
  {
    BookIsComplete(Building, DocOf("2"), "");
    Reports(w, 0, 1, Some("a"), true);
    assert Put(w.s, 1, Other(Building, 2)) == WithOther(Other(Building, 2));
    assert map[][0 := Confirmation(1, Some("a"), Accepted)] == Confirming(Accepted);
  }

  lemma OtherReadied(w: World)
    requires w == World(WithOther(Other(Building, 2)), Confirming(Accepted))
    ensures After(w, MakeReady(0)) == World(WithOther(REVISED), Confirming(Ready))
  {
  }

  lemma QuestionAdded()
    ensures Next(WithOther(REVISED), EditQuestion(1, 0, ADDED)).0 == WithOther(Grown())
  {
    var chunks := REVISED.chunks;
    assert chunks[0].questions + [Question("x", UNEMBEDDED)] == [Question("x", UNEMBEDDED)];
    AdditionIs(WithOther(REVISED), 1, "x", [Question("x", UNEMBEDDED)], Grown());
    OtherApprovalStays();
    OtherReplaced(REVISED, Grown());
  }

  lemma OtherReplaced(v: Version, w: Version)
    ensures WithOther(v).versions[1 := w] == WithOther(w).versions
  {
  }

  lemma OtherApprovalStays()
    ensures Invalidated([Approval(0, true)], 1) == [Approval(0, true)]
  {
    assert [Approval(0, true)][..0] == [];
  }

  lemma AdditionIs(s: Store, id: nat, text: string, questions: seq<Question>, v: Version)
    requires Editable(s, id) && s.versions[id].chunks != [] && text != ""
    requires s.versions[id].chunks[0].questions + [Question(text, UNEMBEDDED)] == questions
    requires var w, chunks := s.versions[id], s.versions[id].chunks;
             Recounted(w.(status := Building, chunks := chunks[0 := chunks[0].(questions := questions)])) == v
    ensures Next(s, EditQuestion(id, 0, AddQuestion(text))).0 == Store(s.versions[id := v], Invalidated(s.approvals, id))
  {
  }

  lemma LiveFound(w: World)
    requires w == World(WithOther(Grown()), Confirming(Ready))
    ensures After(w, FindLive(0)) == World(WithOther(Grown()), Confirming(Found(0)))
  {
    assert IsActiveOf(w.s, 0, w.s.versions[1].corpus);
  }

  lemma EditedSince(w: World)
    requires w == World(WithOther(Other(Building, 2)), Confirming(Accepted))
    ensures Play(w, EDITED_SINCE) == World(WithOther(Grown()), Confirming(Found(0)))
  {
    var w1, w2 := World(WithOther(REVISED), Confirming(Ready)), World(WithOther(Grown()), Confirming(Ready));
    OtherReadied(w);
    QuestionAdded();
    assert After(w1, On(EditQuestion(1, 0, ADDED))) == w2;
    LiveFound(w2);
    ThreeMoves(w, MakeReady(0), On(EditQuestion(1, 0, ADDED)), FindLive(0), w1, w2, World(WithOther(Grown()), Confirming(Found(0))));
  }

  lemma GrownIsPromotable()
    ensures Promotable(Grown(), LIVE, "a") && !FullyEmbedded(Grown().chunks, CONFIG)
  {
    RevisedIsPromotable();
    var chunks := Grown().chunks;
    assert chunks[0] in chunks && chunks[0].chapter == "a" && chunks == [chunks[0], chunks[1]];
    QuestionAt(chunks, 0, 0);
  }

  lemma LiveIsSound(v: Version)
    requires !v.status.Active?
    ensures LiveSound(WithOther(v))
  {
    BookIsComplete(Active, DocOf("1"), "b");
  }

  /** From the empty store: a question is added to a version after its report and its transition,
      and before its promotion, which makes the live version incomplete. */
  lemma LatePromotionSpoilsLive()
    ensures var w := World(Run(EMPTY, BEGINNING), map[]);
            var before, after := Play(w, REPORTED + EDITED_SINCE), Play(w, REPORTED + EDITED_SINCE + [Promote(0)]);
            && LiveSound(w.s) && LiveSound(before.s) && PromotesUnembedded(before, Promote(0))
            && 0 in after.s.versions && after.s.versions[0].status.Active? && !Complete(after.s.versions[0])
  {
    var w, before := World(WithOther(Other(Building, 0)), map[]), World(WithOther(Grown()), Confirming(Found(0)));
    OtherImported();
    OtherReported(w);
    EditedSince(Play(w, REPORTED));
    PlayConcat(w, REPORTED, EDITED_SINCE);
    LiveIsSound(Other(Building, 0));
    LiveIsSound(Grown());
    LatePromotionIs(before);
    PlayTo(w, REPORTED + EDITED_SINCE, Promote(0), before, After(before, Promote(0)));
  }

  lemma GrownSpoilsLive()
    ensures !Complete(Promoted(Grown(), LIVE, "a"))
  {
    GrownIsPromotable();
    BookIsComplete(Active, DocOf("1"), "b");
    PromotionKeepsComplete(Grown(), LIVE, "a");
  }

  lemma PromoteIs(s: Store, temp: Version, live: Version)
    requires s.versions == map[0 := live, 1 := temp] && Promotable(temp, live, "a") && !Complete(Promoted(temp, live, "a"))
    requires !FullyEmbedded(temp.chunks, temp.config)
    ensures var w := World(s, Confirming(Found(0)));
            var s' := After(w, Promote(0)).s;
            PromotesUnembedded(w, Promote(0)) && 0 in s'.versions && s'.versions[0].status.Active? && !Complete(s'.versions[0])
  {
  }

  lemma LatePromotionIs(w: World)
    requires w == World(WithOther(Grown()), Confirming(Found(0)))
    ensures PromotesUnembedded(w, Promote(0))
    ensures var s := After(w, Promote(0)).s; 0 in s.versions && s.versions[0].status.Active? && !Complete(s.versions[0])
  {
    GrownIsPromotable();
    GrownSpoilsLive();
    PromoteIs(w.s, Grown(), LIVE);
  }
}
