/** A whole indexing run: drain, snapshots, batches of ten, counters. */
module Run {
  import opened Catalog
  import opened Store
  import opened IndexPool
  import opened IndexPoolProgress
  import opened IndexPoolSafety
  import opened IndexPoolGate
  import opened IndexPoolOutcome
  import opened IndexPoolConfluence
  import opened Indexing
  import Reconcile
  import Schedules

  /** The k-th choice of the scheduler and of the environment in the n-th batch. A choice that the machine
      cannot follow is replaced by one it can. */
  type Chooser = (nat, nat, Batch, State) -> Action

  /** The auditor answers as a function of contents. */
  ghost predicate Obeys(choose: Chooser, verdict: string -> Assessment) {
    forall n: nat, k: nat, b: Batch, s: State :: Lawful(b, s, choose(n, k, b, s), verdict)
  }

  predicate Lawful(b: Batch, s: State, a: Action, verdict: string -> Assessment) {
    a.AuditReturns? && a.answer.Some? && At(b, s, a.w) ==>
      a.answer.value == verdict(b.eligible[s.workers[a.w].job].contents)
  }

  datatype RunFault =
    | DrainStopped(outcome: Reconcile.Outcome)
    | SnapshotFailed
    | SourceFailed
    | BatchFailed(fault: Fault)

  function Concat(chunks: seq<seq<Candidate>>): seq<Candidate> {
    if chunks == [] then [] else Concat(chunks[..|chunks| - 1]) + chunks[|chunks| - 1]
  }

  ghost predicate CanonicalAll(cs: seq<Candidate>) {
    forall c | c in cs :: CanonicalPresent(c.contents, c.files)
  }

  lemma EligibleCanonical(env: Env, sn: Snapshot, cs: seq<Candidate>, width: nat)
    requires CanonicalAll(cs)
    ensures Canonical(Batch(env, Eligible(env, sn, cs), width))
  {
    SiftCounts(env, sn, cs);
  }

  /** Everything the proofs about the pool say about one complete schedule. */
  lemma BatchFacts(b: Batch, sh: Shared, actions: seq<Action>)
    requires b.width >= 1 && GateIdle(b.env.interval, sh)
    requires Follows(b, Init(b, sh), actions) && Final(b, Init(b, sh), actions).phase.Returned?
    ensures var t := Final(b, Init(b, sh), actions);
      && Settled(b, sh.rows, t) && GateIdle(b.env.interval, t.shared) && sh.passed <= t.shared.passed
      && t.phase.fault != Some(Cancelled(Collector))
      && (Canonical(b) && GateHolds(sh.rows, sh.passed) ==> GateHolds(t.shared.rows, t.shared.passed))
  {
    var s := Init(b, sh);
    var t := Final(b, s, actions);
    BatchReturns(b, sh, actions);
    RootCause(b, sh, actions);
    PaceInit(b, sh);
    AuditsPaced(b, s, actions);
    PassedGrowsAlways(b, s, actions);
    if Canonical(b) && GateHolds(sh.rows, sh.passed) {
      GateKeptByPool(b, s, actions);
    }
  }

  lemma {:induction false} PassedGrowsAlways(b: Batch, s: State, actions: seq<Action>)
    requires Follows(b, s, actions)
    ensures s.shared.passed <= Final(b, s, actions).shared.passed
    decreases |actions|
  {
    if actions != [] {
      PassedGrows(b, s, actions[0]);
      PassedGrowsAlways(b, Apply(b, s, actions[0]), actions[1..]);
    }
  }

  /** The confluence of one batch, in terms of the loop over all its candidates. */
  lemma BatchIsLoop(env: Env, verdict: string -> Assessment, sn: Snapshot, cs: seq<Candidate>, b: Batch, sh: Shared,
                    actions: seq<Action>)
    requires b.width >= 1 && b.env == env && b.eligible == Eligible(env, sn, cs) && DistinctIds(cs)
    requires Follows(b, Init(b, sh), actions) && Answers(b, verdict, Init(b, sh), actions)
    requires Final(b, Init(b, sh), actions).phase == Returned(None)
    ensures var t := Final(b, Init(b, sh), actions);
      (TimelessRows(t.shared.rows), WithTally(Skipped(env, sn, cs), t.tally))
      == Loop(env, verdict, sn, TimelessRows(sh.rows), cs)
  {
    EligibleDistinct(env, sn, cs);
    Confluence(b, verdict, sh, actions);
    LoopIsSequential(env, verdict, sn, sh.rows, cs);
  }

  lemma NothingEligible(env: Env, verdict: string -> Assessment, sn: Snapshot, cs: seq<Candidate>, rows: Rows)
    requires Eligible(env, sn, cs) == []
    ensures Loop(env, verdict, sn, TimelessRows(rows), cs) == (TimelessRows(rows), Skipped(env, sn, cs))
  {
    LoopIsSequential(env, verdict, sn, rows, cs);
    SiftCounts(env, sn, cs);
  }

  // --- Schedules and choosers ----------------------------------------------------------------------

  /** The step taken for a wish. */
  function Chosen(b: Batch, s: State, wish: Action): (a: Action)
    requires Shape(b, s) && s.phase.Collecting? && b.width >= 1
    ensures Enabled(b, s, a)
    ensures Enabled(b, s, wish) ==> a == wish
  {
    if Enabled(b, s, wish) then wish else SomeStep(b, s)
  }

  function StepOf(b: Batch): (State, Action) -> State {
    (s: State, a: Action) => if Enabled(b, s, a) then Apply(b, s, a) else s
  }

  ghost function PickOf(choose: Chooser, number: nat, b: Batch): (nat, State) -> Action {
    (k: nat, s: State) =>
      if Shape(b, s) && s.phase.Collecting? && b.width >= 1 then Chosen(b, s, choose(number, k, b, s)) else CloseResults
  }

  /** The schedule is the one that the chooser picks. */
  ghost predicate Picked(choose: Chooser, number: nat, b: Batch, s: State, actions: seq<Action>) {
    Schedules.Plays(PickOf(choose, number, b), StepOf(b), 0, s, actions)
  }

  lemma {:induction false} AfterIsFinal(b: Batch, s: State, actions: seq<Action>)
    requires Follows(b, s, actions)
    ensures Schedules.After(StepOf(b), s, actions) == Final(b, s, actions)
    decreases |actions|
  {
    if actions != [] {
      AfterIsFinal(b, Apply(b, s, actions[0]), actions[1..]);
    }
  }

  /** A state that a schedule passes through. */
  lemma {:induction false} PassesThrough(b: Batch, s: State, actions: seq<Action>, n: nat)
    requires n < |actions| && Follows(b, s, actions) && Shape(b, s)
    ensures Follows(b, s, actions[..n])
    ensures var t := Final(b, s, actions[..n]); Shape(b, t) && Enabled(b, t, actions[n]) && t.phase.Collecting?
    decreases |actions|
  {
    if n == 0 {
      assert actions[..0] == [];
    } else {
      ShapeKept(b, s, actions[0]);
      PassesThrough(b, Apply(b, s, actions[0]), actions[1..], n - 1);
      assert actions[..n][1..] == actions[1..][..n - 1];
    }
  }

  lemma {:induction false} LawfulAt(b: Batch, s: State, actions: seq<Action>, n: nat, verdict: string -> Assessment)
    requires n < |actions| && Follows(b, s, actions) && Answers(b, verdict, s, actions) && Follows(b, s, actions[..n])
    ensures Lawful(b, Final(b, s, actions[..n]), actions[n], verdict)
    decreases |actions|
  {
    if n == 0 {
      assert actions[..0] == [];
    } else {
      assert actions[..n][1..] == actions[1..][..n - 1];
      LawfulAt(b, Apply(b, s, actions[0]), actions[1..], n - 1, verdict);
    }
  }

  /** The chooser that picks the actions of a schedule, one after another. */
  function ChooserOf(actions: seq<Action>, verdict: string -> Assessment): Chooser {
    (n: nat, k: nat, b: Batch, s: State) =>
      if k < |actions| && Lawful(b, s, actions[k], verdict) then actions[k] else CloseResults
  }

  lemma OwnPick(b: Batch, s: State, actions: seq<Action>, verdict: string -> Assessment, number: nat, k: nat)
    requires Shape(b, s) && b.width >= 1 && s.phase.Collecting? && k < |actions| && Enabled(b, s, actions[k])
      && Lawful(b, s, actions[k], verdict)
    ensures PickOf(ChooserOf(actions, verdict), number, b)(k, s) == actions[k]
  {
    assert ChooserOf(actions, verdict)(number, k, b, s) == actions[k];
  }

  lemma PickedByOwn(b: Batch, before: Shared, actions: seq<Action>, verdict: string -> Assessment, number: nat)
    requires b.width >= 1 && Follows(b, Init(b, before), actions) && Answers(b, verdict, Init(b, before), actions)
    requires Shape(b, Init(b, before))
    ensures Picked(ChooserOf(actions, verdict), number, b, Init(b, before), actions)
  {
    var pick, s := PickOf(ChooserOf(actions, verdict), number, b), Init(b, before);
    forall i: nat | 0 <= i < |actions|
      ensures actions[i] == pick(i, Schedules.After(StepOf(b), s, actions[0..i]))
    {
      PassesThrough(b, s, actions, i);
      LawfulAt(b, s, actions, i, verdict);
      AfterIsFinal(b, s, actions[..i]);
      assert actions[0..i] == actions[..i];
      var t := Final(b, s, actions[..i]);
      OwnPick(b, t, actions, verdict, number, i);
    }
    Schedules.PlaysAll(pick, StepOf(b), 0, s, actions);
    assert actions[0..] == actions;
  }

  /** A chooser picks one complete schedule. */
  lemma PickedOnce(choose: Chooser, number: nat, b: Batch, s: State, one: seq<Action>, two: seq<Action>)
    requires Shape(b, s) && |one| <= |two| && Picked(choose, number, b, s, one) && Picked(choose, number, b, s, two)
    requires Follows(b, s, one) && Final(b, s, one).phase.Returned? && Follows(b, s, two)
    ensures one == two
  {
    Schedules.PlaysPrefix(PickOf(choose, number, b), StepOf(b), 0, s, one, two);
    if |one| < |two| {
      PassesThrough(b, s, two, |one|);
    }
    assert two[..|two|] == two;
  }

  /** Every complete schedule whose answers are those of an auditor is the one that some chooser obeying
      that auditor picks. */
  lemma ScheduleHasChooser(b: Batch, before: Shared, actions: seq<Action>, verdict: string -> Assessment, number: nat)
    requires b.width >= 1 && Follows(b, Init(b, before), actions) && Answers(b, verdict, Init(b, before), actions)
    requires Final(b, Init(b, before), actions).phase.Returned?
    ensures Obeys(ChooserOf(actions, verdict), verdict)
    ensures Picked(ChooserOf(actions, verdict), number, b, Init(b, before), actions)
    ensures forall other |
      && Follows(b, Init(b, before), other) && Final(b, Init(b, before), other).phase.Returned?
      && Picked(ChooserOf(actions, verdict), number, b, Init(b, before), other) :: other == actions
  {
    PickedByOwn(b, before, actions, verdict, number);
    forall other |
      && Follows(b, Init(b, before), other) && Final(b, Init(b, before), other).phase.Returned?
      && Picked(ChooserOf(actions, verdict), number, b, Init(b, before), other)
      ensures other == actions
    {
      if |other| <= |actions| {
        PickedOnce(ChooserOf(actions, verdict), number, b, Init(b, before), other, actions);
      } else {
        PickedOnce(ChooserOf(actions, verdict), number, b, Init(b, before), actions, other);
      }
    }
  }

  /** The schedule so far has brought the machine to `t`, step by step as chosen. */
  ghost predicate Played(choose: Chooser, number: nat, b: Batch, s: State, actions: seq<Action>, t: State,
                         verdict: string -> Assessment) {
    && Follows(b, s, actions) && t == Final(b, s, actions) && Shape(b, t)
    && Picked(choose, number, b, s, actions)
    && (Obeys(choose, verdict) ==> Answers(b, verdict, s, actions))
  }

  lemma PickedOneMore(choose: Chooser, number: nat, b: Batch, s: State, actions: seq<Action>, a: Action)
    requires Follows(b, s, actions) && Picked(choose, number, b, s, actions)
    requires a == PickOf(choose, number, b)(|actions|, Final(b, s, actions))
    ensures Picked(choose, number, b, s, actions + [a])
  {
    AfterIsFinal(b, s, actions);
    Schedules.PlaysOneMore(PickOf(choose, number, b), StepOf(b), 0, s, actions, a);
  }

  lemma OneStepOn(b: Batch, t: State, a: Action)
    requires Shape(b, t) && Enabled(b, t, a)
    ensures Shape(b, Apply(b, t, a)) && 0 <= Left(b, Apply(b, t, a)) < Left(b, t)
  {
    ShapeKept(b, t, a);
    EveryStepCounts(b, t, a);
    LeftBounded(b, Apply(b, t, a));
  }

  lemma PlayedOneMore(choose: Chooser, number: nat, b: Batch, s: State, actions: seq<Action>, t: State,
                      verdict: string -> Assessment, a: Action)
    requires Played(choose, number, b, s, actions, t, verdict) && t.phase.Collecting? && b.width >= 1
    requires a == Chosen(b, t, choose(number, |actions|, b, t))
    ensures Played(choose, number, b, s, actions + [a], Apply(b, t, a), verdict)
    ensures 0 <= Left(b, Apply(b, t, a)) < Left(b, t)
  {
    OneStepOn(b, t, a);
    FollowsAppend(b, s, actions, a);
    PickedOneMore(choose, number, b, s, actions, a);
    if Obeys(choose, verdict) {
      assert Lawful(b, t, choose(number, |actions|, b, t), verdict);
      AnswersAppend(b, verdict, s, actions, a);
    }
  }

  /** Plays the schedule that the chooser picks to its end. */
  method PlayOut(b: Batch, before: Shared, choose: Chooser, number: nat, ghost verdict: string -> Assessment)
    returns (t: State, ghost actions: seq<Action>)
    requires b.width >= 1
    ensures Follows(b, Init(b, before), actions) && t == Final(b, Init(b, before), actions) && t.phase.Returned?
    ensures Picked(choose, number, b, Init(b, before), actions)
    ensures Obeys(choose, verdict) ==> Answers(b, verdict, Init(b, before), actions)
  {
    t, actions := Init(b, before), [];
    var k := 0;
    while t.phase.Collecting?
      invariant k == |actions| && Played(choose, number, b, Init(b, before), actions, t, verdict)
      decreases Left(b, t)
    {
      var a := Chosen(b, t, choose(number, k, b, t));
      PlayedOneMore(choose, number, b, Init(b, before), actions, t, verdict, a);
      actions := actions + [a];
      t := Apply(b, t, a);
      k := k + 1;
    }
  }

  /** The run so far, `yielded` being what the source has produced: full batches of ten, then a buffer
      of fewer; every flushed candidate counted once; the table that of one loop. */
  ghost predicate Books(env: Env, sn: Snapshot, verdict: string -> Assessment, lawful: bool, start: Rows, table: Rows,
                        stats: Stats, chunks: seq<seq<Candidate>>, batch: seq<Candidate>, yielded: seq<Candidate>) {
    && |batch| < 10
    && Concat(chunks) + batch == yielded
    && (forall k | 0 <= k < |chunks| :: |chunks[k]| == 10)
    && stats.discovered == |Concat(chunks)| && stats.Accounted() == |Concat(chunks)|
    && (lawful ==> (TimelessRows(table), stats) == Loop(env, verdict, sn, TimelessRows(start), Concat(chunks)))
  }

  lemma BooksStart(env: Env, sn: Snapshot, verdict: string -> Assessment, lawful: bool, start: Rows, stats: Stats)
    requires IsBlank(stats)
    ensures Books(env, sn, verdict, lawful, start, start, stats, [], [], []) && Concat([]) == []
  {
    BlankIsNone(stats);
  }

  lemma BooksBuffer(env: Env, sn: Snapshot, verdict: string -> Assessment, lawful: bool, start: Rows, table: Rows,
                    stats: Stats, chunks: seq<seq<Candidate>>, batch: seq<Candidate>, yielded: seq<Candidate>,
                    c: Candidate)
    requires Books(env, sn, verdict, lawful, start, table, stats, chunks, batch, yielded)
    requires |batch| + 1 < INDEX_BATCH_SIZE
    ensures Books(env, sn, verdict, lawful, start, table, stats, chunks, batch + [c], yielded + [c])
  {
  }

  /** What a flush of `full`, counted in `added`, does to the counters and, in lawful runs, to the table. */
  ghost predicate Flushed(env: Env, sn: Snapshot, verdict: string -> Assessment, lawful: bool, table: Rows,
                          stats: Stats, full: seq<Candidate>, added: Stats, table': Rows, stats': Stats) {
    && stats' == stats.Add(added) && added.discovered == |full| && added.Accounted() == |full|
    && (lawful ==> (TimelessRows(table'), added) == Loop(env, verdict, sn, TimelessRows(table), full))
  }

  lemma ConcatOneMore(chunks: seq<seq<Candidate>>, full: seq<Candidate>)
    ensures Concat(chunks + [full]) == Concat(chunks) + full
  {
    assert (chunks + [full])[..|chunks|] == chunks;
  }

  lemma FlushIsLoop(env: Env, sn: Snapshot, verdict: string -> Assessment, start: Rows, first: (Rows, Stats),
                    p: seq<Candidate>, second: (Rows, Stats), q: seq<Candidate>)
    requires first == Loop(env, verdict, sn, start, p) && second == Loop(env, verdict, sn, first.0, q)
    ensures (second.0, first.1.Add(second.1)) == Loop(env, verdict, sn, start, p + q)
  {
    LoopConcat(env, verdict, sn, start, p, q);
  }

  lemma BooksFlush(env: Env, sn: Snapshot, verdict: string -> Assessment, lawful: bool, start: Rows, table: Rows,
                   stats: Stats, chunks: seq<seq<Candidate>>, full: seq<Candidate>, added: Stats, table': Rows,
                   stats': Stats)
    requires stats.discovered == |Concat(chunks)| && stats.Accounted() == |Concat(chunks)|
    requires lawful ==> (TimelessRows(table), stats) == Loop(env, verdict, sn, TimelessRows(start), Concat(chunks))
    requires Flushed(env, sn, verdict, lawful, table, stats, full, added, table', stats')
    ensures stats'.discovered == |Concat(chunks) + full| && stats'.Accounted() == |Concat(chunks) + full|
    ensures lawful ==>
      (TimelessRows(table'), stats') == Loop(env, verdict, sn, TimelessRows(start), Concat(chunks) + full)
  {
    CountsAdd(stats, added);
    if lawful {
      FlushIsLoop(env, sn, verdict, TimelessRows(start), (TimelessRows(table), stats), Concat(chunks),
                  (TimelessRows(table'), added), full);
    }
  }

  /** The books after a full batch. */
  lemma BooksNext(env: Env, sn: Snapshot, verdict: string -> Assessment, lawful: bool, start: Rows, table: Rows,
                  stats: Stats, chunks: seq<seq<Candidate>>, full: seq<Candidate>, added: Stats, table': Rows,
                  stats': Stats, chunks': seq<seq<Candidate>>, yielded: seq<Candidate>)
    requires stats.discovered == |Concat(chunks)| && stats.Accounted() == |Concat(chunks)| && |full| == INDEX_BATCH_SIZE
    requires forall k | 0 <= k < |chunks| :: |chunks[k]| == INDEX_BATCH_SIZE
    requires lawful ==> (TimelessRows(table), stats) == Loop(env, verdict, sn, TimelessRows(start), Concat(chunks))
    requires Flushed(env, sn, verdict, lawful, table, stats, full, added, table', stats')
    requires chunks' == chunks + [full] && yielded == Concat(chunks) + full
    ensures Books(env, sn, verdict, lawful, start, table', stats', chunks', [], yielded)
  {
    BooksFlush(env, sn, verdict, lawful, start, table, stats, chunks, full, added, table', stats');
    ConcatOneMore(chunks, full);
    assert Concat(chunks') + [] == yielded;
  }

  // --- What holds of every run, whatever the auditor answers and however the run ends -----------------

  /** The filter's counters are those of the candidates flushed so far, the rows of all other identities
      are as they were when the snapshot was loaded, and so they were before each batch: `tables` are
      the tables that the batches found. */
  ghost predicate Ledger(env: Env, sn: Snapshot, start: Rows, table: Rows, stats: Stats, chunks: seq<seq<Candidate>>,
                         tables: seq<Rows>) {
    && stats.skipped == Skipped(env, sn, Concat(chunks)).skipped
    && OthersKept(env, sn, start, table, Concat(chunks))
    && |tables| == |chunks|
    && forall k | 0 <= k < |chunks| :: OthersKept(env, sn, start, tables[k], Concat(chunks[..k]))
  }

  lemma LedgerStart(env: Env, sn: Snapshot, start: Rows, stats: Stats)
    requires IsBlank(stats)
    ensures Ledger(env, sn, start, start, stats, [], [])
  {
    BlankIsNone(stats);
  }

  lemma LedgerFlush(env: Env, sn: Snapshot, start: Rows, table: Rows, stats: Stats, chunks: seq<seq<Candidate>>,
                    tables: seq<Rows>, full: seq<Candidate>, table': Rows, stats': Stats)
    requires Ledger(env, sn, start, table, stats, chunks, tables)
    requires Together(stats.skipped, Skipped(env, sn, full).skipped, stats'.skipped)
    requires OthersKept(env, sn, table, table', full)
    ensures Ledger(env, sn, start, table', stats', chunks + [full], tables + [table])
  {
    ConcatOneMore(chunks, full);
    SkippedConcat(env, sn, Concat(chunks), full);
    KeptOn(env, sn, start, table, table', Concat(chunks), full);
    var more, found := chunks + [full], tables + [table];
    forall k | 0 <= k < |more|
      ensures OthersKept(env, sn, start, found[k], Concat(more[..k]))
    {
      assert more[..k] == chunks[..k];
      if k == |chunks| {
        assert chunks[..k] == chunks;
      }
    }
  }

  /** The last buffer, which may be empty. */
  lemma LedgerEnd(env: Env, sn: Snapshot, start: Rows, table: Rows, stats: Stats, chunks: seq<seq<Candidate>>,
                  tables: seq<Rows>, rest: seq<Candidate>, table': Rows, stats': Stats, chunks': seq<seq<Candidate>>,
                  tables': seq<Rows>)
    requires Ledger(env, sn, start, table, stats, chunks, tables)
    requires Together(stats.skipped, Skipped(env, sn, rest).skipped, stats'.skipped)
      && OthersKept(env, sn, table, table', rest)
    requires chunks' == if rest == [] then chunks else chunks + [rest]
    requires tables' == if rest == [] then tables else tables + [table]
    ensures Ledger(env, sn, start, table', stats', chunks', tables') && Concat(chunks') == Concat(chunks) + rest
  {
    if rest == [] {
      KeptOn(env, sn, start, table, table', Concat(chunks), rest);
      assert Concat(chunks) + [] == Concat(chunks);
    } else {
      LedgerFlush(env, sn, start, table, stats, chunks, tables, rest, table', stats');
      ConcatOneMore(chunks, rest);
    }
  }

  /** Each candidate's row, when its batch was filtered, was what it was when the snapshot was loaded. */
  ghost predicate LookupsLive(start: Rows, chunks: seq<seq<Candidate>>, tables: seq<Rows>) {
    |tables| == |chunks| &&
    forall k, i | 0 <= k < |chunks| && 0 <= i < |chunks[k]| :: Unchanged(start, tables[k], chunks[k][i].id)
  }

  lemma {:induction false} ChunkInConcat(chunks: seq<seq<Candidate>>, k: nat) returns (rest: seq<Candidate>)
    requires k < |chunks|
    ensures Concat(chunks) == Concat(chunks[..k]) + chunks[k] + rest
    decreases |chunks|
  {
    var n := |chunks| - 1;
    if k == n {
      rest := [];
    } else {
      var more := ChunkInConcat(chunks[..n], k);
      assert chunks[..n][..k] == chunks[..k];
      rest := more + chunks[n];
    }
  }

  /** No identity twice in the stream, so no lookup is out of date. */
  lemma LedgerLive(env: Env, sn: Snapshot, start: Rows, table: Rows, stats: Stats, chunks: seq<seq<Candidate>>,
                   tables: seq<Rows>)
    requires Ledger(env, sn, start, table, stats, chunks, tables) && DistinctIds(Concat(chunks))
    ensures LookupsLive(start, chunks, tables)
  {
    forall k, i | 0 <= k < |chunks| && 0 <= i < |chunks[k]|
      ensures Unchanged(start, tables[k], chunks[k][i].id)
    {
      var rest := ChunkInConcat(chunks, k);
      NewInChunk(Concat(chunks[..k]), chunks[k], rest, i);
      NotAmongEligible(env, sn, Concat(chunks[..k]), chunks[k][i].id);
      assert OthersKept(env, sn, start, tables[k], Concat(chunks[..k]));
    }
  }

  lemma NewInChunk(before: seq<Candidate>, chunk: seq<Candidate>, rest: seq<Candidate>, i: nat)
    requires DistinctIds(before + chunk + rest) && i < |chunk|
    ensures NotAmong(chunk[i].id, before)
  {
    var all := before + chunk + rest;
    assert all[|before| + i] == chunk[i];
    assert forall j | 0 <= j < |before| :: all[j] == before[j];
  }

  /** A batch changed the table by whole effects of its eligible candidates, each at most once, and the
      counters of the pool are those of these effects. */
  ghost predicate WholeEffects(env: Env, eligible: seq<Candidate>, before: Rows, after: Rows, tally: Tally) {
    exists b: Batch, rs: seq<Result>, cancelled: Option<Cause> ::
      b.env == env && b.eligible == eligible && AreEffects(b, before, after, tally, rs, cancelled)
  }

  ghost predicate AreEffects(b: Batch, before: Rows, after: Rows, tally: Tally, rs: seq<Result>,
                             cancelled: Option<Cause>) {
    && after == Fold(b, before, rs) && tally == TallyOf(rs)
    && (forall j: nat :: About(rs, j) <= 1)
    && forall r | r in rs :: Honest(b, cancelled, r)
  }

  /** The pool ran some complete schedule of the batch. */
  ghost predicate PoolRan(b: Batch, before: Shared, after: Shared, tally: Tally, fault: Option<Fault>) {
    exists actions: seq<Action> :: RanBy(b, before, actions, after, tally, fault)
  }

  ghost predicate RanBy(b: Batch, before: Shared, actions: seq<Action>, after: Shared, tally: Tally,
                        fault: Option<Fault>) {
    && Follows(b, Init(b, before), actions)
    && var t := Final(b, Init(b, before), actions);
       t.phase == Returned(fault) && t.shared == after && t.tally == tally
  }

  lemma NoEffects(env: Env, rows: Rows)
    ensures WholeEffects(env, [], rows, rows, Tally(0, 0, 0))
  {
    assert AreEffects(Batch(env, [], 0), rows, rows, Tally(0, 0, 0), [], None);
  }

  /** What the drain left for indexing to start from: the first unassessed rows decided by the answers of
      their turns, and every other row as it was; without an auditor all rows. */
  ghost predicate DrainedBefore(auditing: bool, rows: Rows, turns: nat -> Reconcile.Turn, start: Rows) {
    (exists k :: Reconcile.Drained(rows, turns, start, k)) && (!auditing ==> start == rows)
  }

  lemma CheckedRowsKept(auditing: bool, rows: Rows, turns: nat -> Reconcile.Turn, start: Rows, id: string)
    requires DrainedBefore(auditing, rows, turns, start) && id in rows && rows[id].llmChecked == auditing
    ensures Unchanged(rows, start, id)
  {
  }

  /** What one run meets: its time, how its drain goes, whether the snapshots load, and its source. */
  datatype Occasion = Occasion(
    now: int, counted: bool, loads: nat -> bool, turns: nat -> Reconcile.Turn, snapshotLoads: bool,
    stream: seq<Candidate>, sourceFails: bool, choose: Chooser)

  /** What a run has to do with the tables before, at the start of indexing, and after: the drain, the filter
      over the candidates taken, the rows it may touch, and, complete and for an obeying auditor, the rules. */
  ghost predicate Happened(env: Env, verdict: string -> Assessment, o: Occasion, before: Rows, start: Rows, after: Rows,
                           stats: Stats, taken: nat, complete: bool) {
    && DrainedBefore(env.auditing, before, o.turns, start) && taken <= |o.stream|
    && OthersKept(env, Snapshot(FreshOf(start, o.now - FRESHNESS), HashesOf(start)), start, after, o.stream[..taken])
    && FilteredAs(FreshOf(start, o.now - FRESHNESS), HashesOf(start), env.hash, o.stream[..taken], stats.skipped,
                  Eligible(env, Snapshot(FreshOf(start, o.now - FRESHNESS), HashesOf(start)), o.stream[..taken]))
    && (complete && DistinctIds(o.stream) && Obeys(o.choose, verdict) ==>
          Ruled(env, verdict, FreshOf(start, o.now - FRESHNESS), start, o.stream, after, stats))
  }

  lemma HasHappened(env: Env, verdict: string -> Assessment, o: Occasion, before: Rows, start: Rows, after: Rows,
                    stats: Stats, taken: nat, complete: bool, sn: Snapshot, chunks: seq<seq<Candidate>>,
                    tables: seq<Rows>)
    requires DrainedBefore(env.auditing, before, o.turns, start) && taken <= |o.stream|
    requires sn == Snapshot(FreshOf(start, o.now - FRESHNESS), HashesOf(start))
    requires Ledger(env, sn, start, after, stats, chunks, tables) && Concat(chunks) == o.stream[..taken]
    requires complete && DistinctIds(o.stream) && Obeys(o.choose, verdict) ==>
      (TimelessRows(after), stats) == LiveLoop(env, verdict, sn.freshIds, TimelessRows(start), o.stream)
    ensures Happened(env, verdict, o, before, start, after, stats, taken, complete)
  {
    FilterMeans(env, sn, o.stream[..taken]);
    if complete && DistinctIds(o.stream) && Obeys(o.choose, verdict) {
      LiveLoopMeans(env, verdict, sn.freshIds, start, o.stream, after, stats);
    }
  }

  class Indexer {
    const env: Env
    const concurrency: nat
    const assessor: Reconcile.Assessor
    var batch: seq<Candidate>
    var stats: Stats
    var batchNumber: nat
    ghost var chunks: seq<seq<Candidate>>  // the batches handed to IndexBatch so far
    ghost var tables: seq<Rows>            // the table that each of them found

    constructor (env: Env, concurrency: nat, assessor: Reconcile.Assessor)
      ensures this.env == env && this.concurrency == concurrency && this.assessor == assessor
      ensures batch == [] && IsBlank(stats) && batchNumber == 0 && chunks == [] && tables == []
    {
      this.env, this.concurrency, this.assessor := env, concurrency, assessor;
      batch, stats, batchNumber, chunks, tables := [], NO_STATS, 0, [], [];
    }

    ghost predicate Valid()
      reads this, assessor, assessor.store
    {
      && concurrency >= 1
      && assessor.Valid() && assessor.auditing == env.auditing && assessor.interval == env.interval
    }

    ghost predicate Accounts(sn: Snapshot, verdict: string -> Assessment, lawful: bool, start: Rows,
                             yielded: seq<Candidate>)
      reads this, assessor, assessor.store
    {
      Books(env, sn, verdict, lawful, start, Table(), stats, chunks, batch, yielded)
    }

    ghost predicate Kept(sn: Snapshot, start: Rows)
      reads this, assessor, assessor.store
    {
      Ledger(env, sn, start, Table(), stats, chunks, tables)
    }

    ghost function Table(): Rows
      reads assessor, assessor.store
    {
      assessor.store.tables.skills
    }

    /** The pool's statements reach the table one by one, in the order they were settled. */
    method Commit(b: Batch, settled: seq<Result>, ghost cancelled: Option<Cause>)
      requires Sound(assessor.store.tables)
      requires forall r | r in settled :: Honest(b, cancelled, r)
      modifies assessor.store
      ensures Sound(assessor.store.tables)
      ensures Table() == Fold(b, old(Table()), settled)
    {
      for k := 0 to |settled|
        invariant Sound(assessor.store.tables)
        invariant Table() == Fold(b, old(Table()), settled[..k])
      {
        var r := settled[k];
        assert Honest(b, cancelled, r);
        assert settled[..k + 1][..k] == settled[..k];
        match r.effect {
          case Put(row) => var _ := assessor.store.UpsertSkill(b.eligible[r.job].id, row, true);
          case Drop => var _ := assessor.store.DeleteSkill(b.eligible[r.job].id, true);
          case Keep =>
        }
      }
      assert settled[..|settled|] == settled;
    }

    /** The filter in front of the pool. */
    method Sift(candidates: seq<Candidate>, sn: Snapshot) returns (counted: Stats, eligible: seq<Candidate>)
      ensures counted == Skipped(env, sn, candidates) && eligible == Eligible(env, sn, candidates)
      ensures FilteredAs(sn.freshIds, sn.hashes, env.hash, candidates, counted.skipped, eligible)
    {
      counted, eligible := NO_STATS, [];
      for k := 0 to |candidates|
        invariant counted == Skipped(env, sn, candidates[..k])
        invariant eligible == Eligible(env, sn, candidates[..k])
      {
        var c := candidates[k];
        assert candidates[..k + 1][..k] == candidates[..k];
        counted := counted.(discovered := counted.discovered + 1);
        if SkipFresh(sn, c) {
          counted := counted.(skipped := counted.skipped.(recent := counted.skipped.recent + 1));
        } else if c.stars <= 10 {
          counted := counted.(skipped := counted.skipped.(stars := counted.skipped.stars + 1));
        } else if c.id in sn.hashes && sn.hashes[c.id] == env.hash(c.files) {
          counted := counted.(skipped := counted.skipped.(same := counted.skipped.same + 1));
        } else {
          eligible := eligible + [c];
        }
      }
      assert candidates[..|candidates|] == candidates;
      FilterMeans(env, sn, candidates);
    }

    /** Runs the pool over one batch, one chosen step after another, until it returns; then the table
        and the gate are as the pool left them. */
    method RunPool(b: Batch, choose: Chooser, number: nat, ghost verdict: string -> Assessment)
      returns (t: State, ghost actions: seq<Action>)
      requires assessor.Valid() && b.width >= 1 && b.env.interval == assessor.interval
      modifies assessor, assessor.store
      ensures var s := Init(b, old(assessor.View()));
        && Follows(b, s, actions) && t == Final(b, s, actions) && t.phase.Returned?
        && (Obeys(choose, verdict) ==> Answers(b, verdict, s, actions))
      ensures assessor.Valid() && assessor.View() == t.shared
    {
      var before := Shared(assessor.store.tables.skills, assessor.nextStart, assessor.clock,
                           assessor.starts, assessor.ends, assessor.passed);
      t, actions := PlayOut(b, before, choose, number, verdict);
      BatchFacts(b, before, actions);
      Commit(b, t.settled, t.cancelled);
      assessor.nextStart, assessor.clock := t.shared.nextStart, t.shared.clock;
      assessor.starts, assessor.ends, assessor.passed := t.shared.starts, t.shared.ends, t.shared.passed;
    }

    /** Filters the candidates, runs the pool over the rest and counts. */
    method IndexBatch(candidates: seq<Candidate>, sn: Snapshot, choose: Chooser, number: nat,
                      ghost verdict: string -> Assessment)
      returns (counted: Stats, fault: Option<Fault>)
      requires concurrency >= 1 && assessor.Valid()
      requires assessor.auditing == env.auditing && assessor.interval == env.interval
      modifies assessor, assessor.store
      ensures assessor.Valid() && old(assessor.passed) <= assessor.passed
      ensures counted.discovered == |candidates| && counted.Accounted() <= |candidates|
      ensures fault.None? ==> counted.Accounted() == |candidates|
      ensures counted.skipped == Skipped(env, sn, candidates).skipped
      ensures FilteredAs(sn.freshIds, sn.hashes, env.hash, candidates, counted.skipped, Eligible(env, sn, candidates))
      ensures OthersKept(env, sn, old(Table()), Table(), candidates)
      ensures WholeEffects(env, Eligible(env, sn, candidates), old(Table()), Table(), counted.tally)
      ensures var eligible := Eligible(env, sn, candidates);
        eligible != [] ==>
          PoolRan(Batch(env, eligible, if concurrency < |eligible| then concurrency else |eligible|),
                  old(assessor.View()), assessor.View(), counted.tally, fault)
      ensures fault != Some(Cancelled(Collector))
      ensures CanonicalAll(candidates) && GateHolds(old(Table()), old(assessor.passed)) ==>
        GateHolds(Table(), assessor.passed)
      ensures fault.None? && DistinctIds(candidates) && Obeys(choose, verdict) ==>
        (TimelessRows(Table()), counted) == Loop(env, verdict, sn, TimelessRows(old(Table())), candidates)
    {
      var eligible;
      counted, eligible := Sift(candidates, sn);
      SiftCounts(env, sn, candidates);
      if eligible == [] {
        NothingEligible(env, verdict, sn, candidates, Table());
        NoEffects(env, Table());
        AccountedIs(counted);
        return counted, None;
      }
      var b := Batch(env, eligible, if concurrency < |eligible| then concurrency else |eligible|);
      ghost var before := assessor.View();
      var t, actions := RunPool(b, choose, number, verdict);
      BatchFacts(b, before, actions);
      FoldKeepsOthers(b, before.rows, t.settled);
      assert AreEffects(b, before.rows, t.shared.rows, t.tally, t.settled, t.cancelled);
      if CanonicalAll(candidates) {
        EligibleCanonical(env, sn, candidates, b.width);
      }
      if t.phase.fault.None? && DistinctIds(candidates) && Obeys(choose, verdict) {
        BatchIsLoop(env, verdict, sn, candidates, b, before, actions);
      }
      assert RanBy(b, before, actions, assessor.View(), t.tally, t.phase.fault);
      counted := WithTally(counted, t.tally);
      AccountedIs(counted);
      fault := t.phase.fault;
    }

    /** Hands a buffer that is not empty to IndexBatch. */
    method FlushBatch(sn: Snapshot, choose: Chooser, ghost verdict: string -> Assessment)
      returns (fault: Option<Fault>, counted: Stats)
      requires Valid() && batch != []
      modifies this, assessor, assessor.store
      ensures Valid() && old(assessor.passed) <= assessor.passed && batch == []
      ensures chunks == old(chunks) + [old(batch)] && tables == old(tables) + [old(Table())]
      ensures stats == old(stats).Add(counted) && counted.skipped == Skipped(env, sn, old(batch)).skipped
      ensures OthersKept(env, sn, old(Table()), Table(), old(batch))
      ensures WholeEffects(env, Eligible(env, sn, old(batch)), old(Table()), Table(), counted.tally)
      ensures counted.discovered == |old(batch)| && counted.Accounted() <= |old(batch)|
      ensures fault.None? ==> counted.Accounted() == |old(batch)|
      ensures fault != Some(Cancelled(Collector))
      ensures CanonicalAll(old(batch)) && GateHolds(old(Table()), old(assessor.passed)) ==>
        GateHolds(Table(), assessor.passed)
      ensures fault.None? && DistinctIds(old(batch)) && Obeys(choose, verdict) ==>
        (TimelessRows(Table()), counted) == Loop(env, verdict, sn, TimelessRows(old(Table())), old(batch))
    {
      batchNumber := batchNumber + 1;
      tables := tables + [Table()];
      counted, fault := IndexBatch(batch, sn, choose, batchNumber, verdict);
      stats := stats.Add(counted);
      chunks := chunks + [batch];
      batch := [];
    }

    /** Hands the buffer to IndexBatch, adds its counters, error or not, and empties the buffer. */
    method Flush(sn: Snapshot, choose: Chooser, ghost verdict: string -> Assessment)
      returns (fault: Option<Fault>, ghost counted: Stats)
      requires Valid()
      modifies this, assessor, assessor.store
      ensures Valid() && old(assessor.passed) <= assessor.passed && batch == []
      ensures chunks == if old(batch) == [] then old(chunks) else old(chunks) + [old(batch)]
      ensures tables == if old(batch) == [] then old(tables) else old(tables) + [old(Table())]
      ensures stats == old(stats).Add(counted) && counted.skipped == Skipped(env, sn, old(batch)).skipped
      ensures OthersKept(env, sn, old(Table()), Table(), old(batch))
      ensures WholeEffects(env, Eligible(env, sn, old(batch)), old(Table()), Table(), counted.tally)
      ensures counted.discovered == |old(batch)| && counted.Accounted() <= |old(batch)|
      ensures fault != Some(Cancelled(Collector))
      ensures CanonicalAll(old(batch)) && GateHolds(old(Table()), old(assessor.passed)) ==>
        GateHolds(Table(), assessor.passed)
      ensures fault.None? ==>
        Flushed(env, sn, verdict, DistinctIds(old(batch)) && Obeys(choose, verdict),
                old(Table()), old(stats), old(batch), counted, Table(), stats)
    {
      if batch == [] {
        NoEffects(env, Table());
        return None, NO_STATS;
      }
      var more;
      fault, more := FlushBatch(sn, choose, verdict);
      counted := more;
    }

    /** Accepts a candidate after those in `sofar`; the tenth is not accepted before the nine before it
        and itself are done. `lawful` and `guarded` are the hypotheses under which the table is followed. */
    method Yield(candidate: Candidate, sn: Snapshot, choose: Chooser, ghost verdict: string -> Assessment,
                 ghost lawful: bool, ghost guarded: bool, ghost start: Rows, ghost sofar: seq<Candidate>)
      returns (fault: Option<Fault>)
      requires Valid() && Accounts(sn, verdict, lawful, start, sofar) && Kept(sn, start)
      requires lawful ==> DistinctIds(sofar + [candidate]) && Obeys(choose, verdict)
      requires guarded ==> CanonicalAll(sofar + [candidate]) && GateHolds(Table(), assessor.passed)
      modifies this, assessor, assessor.store
      ensures Valid() && Kept(sn, start) && old(assessor.passed) <= assessor.passed
      ensures fault.None? ==> Accounts(sn, verdict, lawful, start, sofar + [candidate])
      ensures fault.Some? ==> Concat(chunks) == sofar + [candidate] && batch == []
      ensures stats.discovered == |Concat(chunks)| && stats.Accounted() <= |Concat(chunks)|
      ensures fault != Some(Cancelled(Collector))
      ensures guarded ==> GateHolds(Table(), assessor.passed)
    {
      ghost var held := batch;
      batch := batch + [candidate];
      if |batch| < INDEX_BATCH_SIZE {
        BooksBuffer(env, sn, verdict, lawful, start, Table(), stats, chunks, held, sofar, candidate);
        return None;
      }
      fault := FlushFull(sn, choose, verdict, lawful, guarded, start, sofar + [candidate]);
    }

    /** A full buffer; `taken` is the stream up to it. */
    method FlushFull(sn: Snapshot, choose: Chooser, ghost verdict: string -> Assessment, ghost lawful: bool,
                     ghost guarded: bool, ghost start: Rows, ghost taken: seq<Candidate>)
      returns (fault: Option<Fault>)
      requires Valid() && Kept(sn, start) && |batch| == INDEX_BATCH_SIZE && Concat(chunks) + batch == taken
      requires forall k | 0 <= k < |chunks| :: |chunks[k]| == INDEX_BATCH_SIZE
      requires stats.discovered == |Concat(chunks)| && stats.Accounted() == |Concat(chunks)|
      requires lawful ==> (TimelessRows(Table()), stats) == Loop(env, verdict, sn, TimelessRows(start), Concat(chunks))
      requires lawful ==> DistinctIds(taken) && Obeys(choose, verdict)
      requires guarded ==> CanonicalAll(taken) && GateHolds(Table(), assessor.passed)
      modifies this, assessor, assessor.store
      ensures Valid() && Kept(sn, start) && old(assessor.passed) <= assessor.passed
      ensures fault.None? ==> Accounts(sn, verdict, lawful, start, taken)
      ensures Concat(chunks) == taken && batch == []
      ensures stats.discovered == |taken| && stats.Accounted() <= |taken|
      ensures fault != Some(Cancelled(Collector))
      ensures guarded ==> GateHolds(Table(), assessor.passed)
    {
      ghost var before, full, table, counted, found := chunks, batch, Table(), stats, tables;
      SuffixFacts(Concat(before), full);
      ghost var added;
      fault, added := Flush(sn, choose, verdict);
      ConcatOneMore(before, full);
      LedgerFlush(env, sn, start, table, counted, before, found, full, Table(), stats);
      CountsAdd(counted, added);
      if fault.None? {
        BooksNext(env, sn, verdict, lawful, start, table, counted, before, full, added, Table(), stats, chunks, taken);
      }
    }

    /** Feeds the source's candidates, after those in `done`, to the buffer until one of them is refused. */
    method Stream(stream: seq<Candidate>, sn: Snapshot, choose: Chooser, ghost verdict: string -> Assessment,
                  ghost lawful: bool, ghost guarded: bool, ghost start: Rows, ghost done: seq<Candidate>)
      returns (fault: Option<Fault>, ghost taken: nat)
      requires Valid() && Accounts(sn, verdict, lawful, start, done) && Kept(sn, start)
      requires lawful ==> DistinctIds(done + stream) && Obeys(choose, verdict)
      requires guarded ==> CanonicalAll(done + stream) && GateHolds(Table(), assessor.passed)
      modifies this, assessor, assessor.store
      ensures Valid() && Kept(sn, start) && old(assessor.passed) <= assessor.passed
      ensures fault.None? ==> Accounts(sn, verdict, lawful, start, done + stream)
      ensures fault.Some? ==> taken <= |stream| && Concat(chunks) == done + stream[..taken] && batch == []
      ensures fault.Some? ==> stats.discovered == |Concat(chunks)| && stats.Accounted() <= |Concat(chunks)|
      ensures fault != Some(Cancelled(Collector))
      ensures guarded ==> GateHolds(Table(), assessor.passed)
    {
      taken := 0;
      NothingTaken(done, stream);
      for k := 0 to |stream|
        invariant Valid() && old(assessor.passed) <= assessor.passed
        invariant Accounts(sn, verdict, lawful, start, done + stream[..k]) && Kept(sn, start)
        invariant guarded ==> GateHolds(Table(), assessor.passed)
      {
        StreamStep(done, stream, k);
        fault := Yield(stream[k], sn, choose, verdict, lawful, guarded, start, done + stream[..k]);
        if fault.Some? {
          return fault, k + 1;
        }
      }
      WholeStream(stream);
      return None, |stream|;
    }

    /** The last, possibly short, batch. */
    method Finish(sn: Snapshot, choose: Chooser, ghost verdict: string -> Assessment, ghost lawful: bool,
                  ghost guarded: bool, ghost start: Rows, ghost stream: seq<Candidate>)
      returns (fault: Option<Fault>)
      requires Valid() && Accounts(sn, verdict, lawful, start, stream) && Kept(sn, start)
      requires lawful ==> DistinctIds(stream) && Obeys(choose, verdict)
      requires guarded ==> CanonicalAll(stream) && GateHolds(Table(), assessor.passed)
      modifies this, assessor, assessor.store
      ensures Valid() && old(assessor.passed) <= assessor.passed
      ensures Kept(sn, start)
      ensures Concat(chunks) == stream && stats.discovered == |stream| && stats.Accounted() <= |stream|
      ensures fault.None? ==> stats.Accounted() == |stream|
      ensures fault.None? && lawful ==>
        (TimelessRows(Table()), stats) == Loop(env, verdict, sn, TimelessRows(start), stream)
      ensures fault != Some(Cancelled(Collector))
      ensures guarded ==> GateHolds(Table(), assessor.passed)
    {
      ghost var before, rest, table, counted, found := chunks, batch, Table(), stats, tables;
      SuffixFacts(Concat(before), rest);
      ghost var added;
      fault, added := Flush(sn, choose, verdict);
      LedgerEnd(env, sn, start, table, counted, before, found, rest, Table(), stats, chunks, tables);
      CountsAdd(counted, added);
      if fault.None? {
        BooksFlush(env, sn, verdict, lawful, start, table, counted, before, rest, added, Table(), stats);
      }
    }

    /** The source's candidates, then the last batch. */
    method FromSource(sn: Snapshot, stream: seq<Candidate>, sourceFails: bool, choose: Chooser,
                      ghost verdict: string -> Assessment, ghost lawful: bool, ghost guarded: bool)
      returns (fault: Option<RunFault>, ghost taken: nat)
      requires Valid() && batch == [] && IsBlank(stats) && chunks == [] && tables == []
      requires lawful ==> DistinctIds(stream) && Obeys(choose, verdict)
      requires guarded ==> CanonicalAll(stream) && GateHolds(Table(), assessor.passed)
      modifies this, assessor, assessor.store
      ensures Valid() && old(assessor.passed) <= assessor.passed
      ensures taken <= |stream| && Concat(chunks) == stream[..taken] && Kept(sn, old(Table()))
      ensures stats.discovered == taken && stats.Accounted() <= taken
      ensures fault.None? ==> !sourceFails && taken == |stream| && stats.Accounted() == |stream|
      ensures fault.None? && lawful ==>
        (TimelessRows(Table()), stats) == Loop(env, verdict, sn, TimelessRows(old(Table())), stream)
      ensures fault != Some(BatchFailed(Cancelled(Collector)))
      ensures guarded ==> GateHolds(Table(), assessor.passed)
    {
      ghost var start := Table();
      BooksStart(env, sn, verdict, lawful, start, stats);
      LedgerStart(env, sn, start, stats);
      FromTheStart(stream, |stream|);
      var refused;
      refused, taken := Stream(stream, sn, choose, verdict, lawful, guarded, start, []);
      if refused.Some? {
        FromTheStart(stream, taken);
        return Some(BatchFailed(refused.value)), taken;
      }
      if sourceFails {
        FlushedPart(Concat(chunks), batch, stream);
        return Some(SourceFailed), |Concat(chunks)|;
      }
      refused := Finish(sn, choose, verdict, lawful, guarded, start, stream);
      WholeStream(stream);
      return if refused.Some? then Some(BatchFailed(refused.value)) else None, |stream|;
    }

    /** Everything after the drain: the snapshots, then the source. */
    method Discover(cutoff: int, snapshotLoads: bool, stream: seq<Candidate>, sourceFails: bool, choose: Chooser,
                    ghost verdict: string -> Assessment, ghost lawful: bool, ghost guarded: bool)
      returns (fault: Option<RunFault>, ghost taken: nat)
      requires Valid() && batch == [] && IsBlank(stats) && chunks == [] && tables == []
      requires lawful ==> DistinctIds(stream) && Obeys(choose, verdict)
      requires guarded ==> CanonicalAll(stream) && GateHolds(Table(), assessor.passed)
      modifies this, assessor, assessor.store
      ensures Valid() && old(assessor.passed) <= assessor.passed
      ensures taken <= |stream| && Concat(chunks) == stream[..taken]
      ensures stats.tally.stored + stats.tally.weak + stats.tally.failed
        + stats.skipped.stars + stats.skipped.recent + stats.skipped.same <= stats.discovered == taken
      ensures fault.None? ==> snapshotLoads && !sourceFails && taken == |stream|
      ensures Kept(Snapshot(FreshOf(old(Table()), cutoff), HashesOf(old(Table()))), old(Table()))
      ensures fault.None? ==> stats.tally.stored + stats.tally.weak + stats.tally.failed
                              + stats.skipped.stars + stats.skipped.recent + stats.skipped.same == |stream|
      ensures fault.None? && lawful ==>
        (TimelessRows(Table()), stats) ==
          LiveLoop(env, verdict, FreshOf(old(Table()), cutoff), TimelessRows(old(Table())), stream)
      ensures fault != Some(BatchFailed(Cancelled(Collector)))
      ensures guarded ==> GateHolds(Table(), assessor.passed)
    {
      ghost var start := Table();
      NothingCounted(stream);
      if snapshotLoads {
        var ids := assessor.store.FreshSkillIDs(cutoff);
        var hashes := assessor.store.SkillContentHashes();
        SnapshotIs(start, cutoff, ids, hashes);
        assert HashesOf(TimelessRows(start)) == HashesOf(start);
        fault, taken := FromSource(Snapshot(ids, hashes), stream, sourceFails, choose, verdict, lawful, guarded);
        if lawful {
          SnapshotAgrees(env, verdict, ids, TimelessRows(start), stream);
        }
      } else {
        LedgerStart(env, Snapshot(FreshOf(start, cutoff), HashesOf(start)), start, stats);
        fault, taken := Some(SnapshotFailed), 0;
      }
      AccountedIs(stats);
    }

    /** The start of a run: everything reset, then the drain. */
    method Begin(counted: bool, loads: nat -> bool, turns: nat -> Reconcile.Turn) returns (fault: Option<RunFault>)
      requires Valid()
      modifies this, assessor, assessor.store
      ensures Valid() && old(assessor.passed) <= assessor.passed
      ensures batch == [] && IsBlank(stats) && chunks == [] && tables == []
      ensures fault.Some? ==> fault.value.DrainStopped?
      ensures fault.None? && env.auditing ==> forall id | id in Table() :: Table()[id].llmChecked
      ensures DrainedBefore(env.auditing, old(Table()), turns, Table())
      ensures GateHolds(old(Table()), old(assessor.passed)) ==> GateHolds(Table(), assessor.passed)
    {
      batch, stats, batchNumber, chunks, tables := [], NO_STATS, 0, [], [];
      ghost var earlier, audited := Table(), assessor.passed;
      var outcome, processed, replies := assessor.Reconcile(counted, loads, turns);
      if GateHolds(earlier, audited) {
        Reconcile.DrainKeepsGate(earlier, replies, turns, Table(), processed, audited, assessor.passed);
      }
      assert Reconcile.Drained(earlier, turns, Table(), processed);
      return if outcome.Complete? then None else Some(DrainStopped(outcome));
    }

    /** The drain, then the rest, with the books and the ledger kept. */
    method DrainAndDiscover(o: Occasion, ghost verdict: string -> Assessment)
      returns (fault: Option<RunFault>, ghost taken: nat, ghost start: Rows)
      requires Valid()
      modifies this, assessor, assessor.store
      ensures Valid() && old(assessor.passed) <= assessor.passed
      ensures taken <= |o.stream| && Concat(chunks) == o.stream[..taken]
      ensures stats.Accounted() <= stats.discovered == taken
      ensures fault.None? ==> o.snapshotLoads && !o.sourceFails && taken == |o.stream| == stats.Accounted()
      ensures fault.None? && env.auditing ==> forall id | id in start :: start[id].llmChecked
      ensures DrainedBefore(env.auditing, old(Table()), o.turns, start)
      ensures Kept(Snapshot(FreshOf(start, o.now - FRESHNESS), HashesOf(start)), start)
      ensures fault.None? && DistinctIds(o.stream) && Obeys(o.choose, verdict) ==>
        (TimelessRows(Table()), stats) ==
          LiveLoop(env, verdict, FreshOf(start, o.now - FRESHNESS), TimelessRows(start), o.stream)
      ensures fault != Some(BatchFailed(Cancelled(Collector)))
      ensures CanonicalAll(o.stream) && GateHolds(old(Table()), old(assessor.passed)) ==>
        GateHolds(Table(), assessor.passed)
    {
      ghost var guarded := CanonicalAll(o.stream) && GateHolds(Table(), assessor.passed);
      fault := Begin(o.counted, o.loads, o.turns);
      start := Table();
      if fault.Some? {
        NothingCounted(o.stream);
        LedgerStart(env, Snapshot(FreshOf(start, o.now - FRESHNESS), HashesOf(start)), start, stats);
        BlankIsNone(stats);
        return fault, 0, start;
      }
      fault, taken := Discover(o.now - FRESHNESS, o.snapshotLoads, o.stream, o.sourceFails, o.choose, verdict,
                               DistinctIds(o.stream) && Obeys(o.choose, verdict), guarded);
      AccountedIs(stats);
    }

    /** A run. `stream` is what the source yields while it is not refused; then it may fail itself. */
    method Run(o: Occasion, ghost verdict: string -> Assessment)
      returns (result: Stats, fault: Option<RunFault>, ghost taken: nat, ghost start: Rows)
      requires Valid()
      modifies this, assessor, assessor.store
      ensures Valid() && old(assessor.passed) <= assessor.passed
      ensures taken <= |o.stream| && Concat(chunks) == o.stream[..taken]
      ensures result.tally.stored + result.tally.weak + result.tally.failed
        + result.skipped.stars + result.skipped.recent + result.skipped.same <= result.discovered == taken
      ensures fault.None? ==> o.snapshotLoads && !o.sourceFails && taken == |o.stream|
      ensures fault.None? ==> result.tally.stored + result.tally.weak + result.tally.failed
                              + result.skipped.stars + result.skipped.recent + result.skipped.same == |o.stream|
      ensures fault.None? && env.auditing ==> forall id | id in start :: start[id].llmChecked
      ensures Happened(env, verdict, o, old(Table()), start, Table(), result, taken, fault.None?)
      ensures result.skipped ==
        Skipped(env, Snapshot(FreshOf(start, o.now - FRESHNESS), HashesOf(start)), o.stream[..taken]).skipped
      ensures TableKept(start, Table(), o.stream[..taken])
      ensures DistinctIds(o.stream) ==> LookupsLive(start, chunks, tables)
      ensures (forall k | 0 <= k < |o.stream| :: Worthy(FreshOf(start, o.now - FRESHNESS), o.stream[k])) ==>
        result.skipped.stars == 0 && result.skipped.recent == 0
      ensures fault.None? && DistinctIds(o.stream) && Obeys(o.choose, verdict) ==>
        (TimelessRows(Table()), result) ==
          LiveLoop(env, verdict, FreshOf(start, o.now - FRESHNESS), TimelessRows(start), o.stream)
      ensures fault != Some(BatchFailed(Cancelled(Collector)))
      ensures CanonicalAll(o.stream) && GateHolds(old(Table()), old(assessor.passed)) ==>
        GateHolds(Table(), assessor.passed)
    {
      ghost var before := Table();
      fault, taken, start := DrainAndDiscover(o, verdict);
      ghost var sn := Snapshot(FreshOf(start, o.now - FRESHNESS), HashesOf(start));
      LedgerConcludes(env, sn, start, Table(), stats, chunks, tables, o.stream, taken);
      HasHappened(env, verdict, o, before, start, Table(), stats, taken, fault.None?, sn, chunks, tables);
      AccountedIs(stats);
      return stats, fault, taken, start;
    }
  }

  /** The candidate is yielded to a later run, when its row has not been updated for seven days. */
  predicate ComesBack(c: Candidate, rows: Rows, now: int, d: Candidate) {
    && d.id == c.id && !d.knownFresh && d.stars > 10
    && d.id in rows && rows[d.id].updatedAt <= now - 7 * 24 * 60 * 60 * 1_000_000_000
  }

  /** What becomes of it: with the same content hash it is filtered out as unchanged and its row is left
      alone, with another one it is let through to the pool. */
  ghost predicate HandledAgain(env: Env, c: Candidate, between: Rows, start: Rows, after: Rows, d: Candidate,
                               due: seq<Candidate>) {
    && (SameFiles(HashesOf(start), env.hash, d) <==> env.hash(d.files) == env.hash(c.files))
    && (env.hash(d.files) == env.hash(c.files) ==> Unchanged(between, after, d.id))
    && (env.hash(d.files) != env.hash(c.files) ==> d in due)
  }

  lemma NoLongerFresh(rows: Rows, start: Rows, now: int, c: Candidate, d: Candidate)
    requires ComesBack(c, rows, now, d) && Unchanged(rows, start, d.id)
    ensures !SeenLately(FreshOf(start, now - FRESHNESS), d)
  {
  }

  /** A candidate that one run stored and a later one meets. */
  lemma MetAgain(env: Env, verdict: string -> Assessment, freshIds: set<string>, first: Rows, stream: seq<Candidate>,
                 between: Rows, stats: Stats, turns: nat -> Reconcile.Turn, start: Rows, now: int,
                 later: seq<Candidate>, after: Rows, i: nat, j: nat)
    requires Ruled(env, verdict, freshIds, first, stream, between, stats)
    requires i < |stream| && Stores(env, verdict, freshIds, HashesOf(first), stream[i])
    requires DrainedBefore(env.auditing, between, turns, start)
    requires j < |later| && DistinctIds(later) && ComesBack(stream[i], between, now, later[j])
    requires OthersKept(env, Snapshot(FreshOf(start, now - FRESHNESS), HashesOf(start)), start, after, later)
    ensures HandledAgain(env, stream[i], between, start, after, later[j],
                         Eligible(env, Snapshot(FreshOf(start, now - FRESHNESS), HashesOf(start)), later))
  {
    StoredRow(env, verdict, freshIds, first, stream, between, stats, i);
    CheckedRowsKept(env.auditing, between, turns, start, stream[i].id);
    NoLongerFresh(between, start, now, stream[i], later[j]);
    SeenAgain(env, between, FreshOf(start, now - FRESHNESS), start, later, after, j, env.hash(stream[i].files));
  }

  /** Whatever one run stored and a later one meets again after the freshness window is handled again exactly
      if its files have changed. */
  ghost predicate Revisited(env: Env, verdict: string -> Assessment, freshIds: set<string>, first: Rows,
                            stream: seq<Candidate>, between: Rows, start: Rows, now: int, later: seq<Candidate>,
                            after: Rows) {
    forall i, j |
      && 0 <= i < |stream| && 0 <= j < |later|
      && Stores(env, verdict, freshIds, HashesOf(first), stream[i]) && ComesBack(stream[i], between, now, later[j]) ::
      HandledAgain(env, stream[i], between, start, after, later[j],
                   Eligible(env, Snapshot(FreshOf(start, now - FRESHNESS), HashesOf(start)), later))
  }

  lemma AllMetAgain(env: Env, verdict: string -> Assessment, freshIds: set<string>, first: Rows, stream: seq<Candidate>,
                    between: Rows, stats: Stats, turns: nat -> Reconcile.Turn, start: Rows, now: int,
                    whole: seq<Candidate>, taken: nat, after: Rows)
    requires Ruled(env, verdict, freshIds, first, stream, between, stats)
    requires DrainedBefore(env.auditing, between, turns, start) && DistinctIds(whole) && taken <= |whole|
    requires OthersKept(env, Snapshot(FreshOf(start, now - FRESHNESS), HashesOf(start)), start, after, whole[..taken])
    ensures Revisited(env, verdict, freshIds, first, stream, between, start, now, whole[..taken], after)
  {
    var later := whole[..taken];
    assert forall k | 0 <= k < taken :: later[k] == whole[k];
    forall i, j |
      && 0 <= i < |stream| && 0 <= j < |later|
      && Stores(env, verdict, freshIds, HashesOf(first), stream[i]) && ComesBack(stream[i], between, now, later[j])
      ensures HandledAgain(env, stream[i], between, start, after, later[j],
                           Eligible(env, Snapshot(FreshOf(start, now - FRESHNESS), HashesOf(start)), later))
    {
      MetAgain(env, verdict, freshIds, first, stream, between, stats, turns, start, now, later, after, i, j);
    }
  }

  lemma TwiceRevisited(env: Env, verdict: string -> Assessment, first: Occasion, second: Occasion, before: Rows,
                       start: Rows, between: Rows, stats: Stats, all: nat, restart: Rows, later: Stats, taken: nat,
                       after: Rows, complete: bool)
    requires Happened(env, verdict, first, before, start, between, stats, all, true)
    requires Happened(env, verdict, second, between, restart, after, later, taken, complete)
    requires DistinctIds(first.stream) && DistinctIds(second.stream) && Obeys(first.choose, verdict)
    ensures Revisited(env, verdict, FreshOf(start, first.now - FRESHNESS), start, first.stream, between, restart,
                      second.now, second.stream[..taken], after)
  {
    AllMetAgain(env, verdict, FreshOf(start, first.now - FRESHNESS), start, first.stream, between, stats,
                second.turns, restart, second.now, second.stream, taken, after);
  }

  method RunOnce(indexer: Indexer, o: Occasion, ghost verdict: string -> Assessment)
    returns (result: Stats, fault: Option<RunFault>, ghost taken: nat, ghost start: Rows)
    requires indexer.Valid()
    modifies indexer, indexer.assessor, indexer.assessor.store
    ensures indexer.Valid()
    ensures Happened(indexer.env, verdict, o, old(indexer.Table()), start, indexer.Table(), result, taken, fault.None?)
  {
    result, fault, taken, start := indexer.Run(o, verdict);
  }

  /** Two runs one after the other, the second one ending in any way. */
  method RunTwice(indexer: Indexer, first: Occasion, second: Occasion, ghost verdict: string -> Assessment)
    returns (fault: Option<RunFault>, again: Option<RunFault>, ghost start: Rows, ghost between: Rows,
             ghost restart: Rows, ghost taken: nat)
    requires indexer.Valid()
    modifies indexer, indexer.assessor, indexer.assessor.store
    ensures indexer.Valid() && taken <= |second.stream|
    ensures fault.None? && DistinctIds(first.stream) && DistinctIds(second.stream) && Obeys(first.choose, verdict) ==>
      Revisited(indexer.env, verdict, FreshOf(start, first.now - FRESHNESS), start, first.stream, between, restart,
                second.now, second.stream[..taken], indexer.Table())
  {
    var counted, later;
    ghost var all;
    ghost var before := indexer.Table();
    counted, fault, all, start := RunOnce(indexer, first, verdict);
    between := indexer.Table();
    later, again, taken, restart := RunOnce(indexer, second, verdict);
    if fault.None? && DistinctIds(first.stream) && DistinctIds(second.stream) && Obeys(first.choose, verdict) {
      TwiceRevisited(indexer.env, verdict, first, second, before, start, between, counted, all, restart, later,
                     taken, indexer.Table(), again.None?);
    }
  }

  /** What the ledger of a finished run says about its stream. */
  lemma LedgerConcludes(env: Env, sn: Snapshot, start: Rows, table: Rows, stats: Stats, chunks: seq<seq<Candidate>>,
                        tables: seq<Rows>, stream: seq<Candidate>, taken: nat)
    requires Ledger(env, sn, start, table, stats, chunks, tables)
    requires taken <= |stream| && Concat(chunks) == stream[..taken]
    ensures stats.skipped == Skipped(env, sn, stream[..taken]).skipped
    ensures FilteredAs(sn.freshIds, sn.hashes, env.hash, stream[..taken], stats.skipped,
                       Eligible(env, sn, stream[..taken]))
    ensures OthersKept(env, sn, start, table, stream[..taken]) && TableKept(start, table, stream[..taken])
    ensures DistinctIds(stream) ==> LookupsLive(start, chunks, tables)
    ensures (forall k | 0 <= k < |stream| :: Worthy(sn.freshIds, stream[k])) ==>
      stats.skipped.stars == 0 && stats.skipped.recent == 0
  {
    assert forall k | 0 <= k < taken :: stream[..taken][k] == stream[k];
    OthersKeptMeans(env, sn, start, table, stream[..taken]);
    FilterMeans(env, sn, stream[..taken]);
    if DistinctIds(stream) {
      LedgerLive(env, sn, start, table, stats, chunks, tables);
    }
    if forall k | 0 <= k < |stream| :: Worthy(sn.freshIds, stream[k]) {
      WorthyNotSkipped(env, sn, stream[..taken]);
    }
  }

  function FreshOf(rows: Rows, cutoff: int): set<string> {
    set id | id in rows && rows[id].updatedAt > cutoff
  }

  lemma SnapshotIs(rows: Rows, cutoff: int, ids: set<string>, hashes: map<string, string>)
    requires forall id :: id in ids <==> id in rows && rows[id].updatedAt > cutoff
    requires hashes.Keys == rows.Keys && forall id | id in hashes :: hashes[id] == rows[id].hash
    ensures ids == FreshOf(rows, cutoff) && hashes == HashesOf(TimelessRows(rows))
  {
  }

  lemma NothingCounted(stream: seq<Candidate>)
    ensures Concat([]) == stream[..0]
  {
  }

  lemma FlushedPart(flushed: seq<Candidate>, batch: seq<Candidate>, stream: seq<Candidate>)
    requires flushed + batch == stream
    ensures |flushed| <= |stream| && flushed == stream[..|flushed|]
  {
  }

  lemma FromTheStart(stream: seq<Candidate>, taken: nat)
    requires taken <= |stream|
    ensures [] + stream[..taken] == stream[..taken] && [] + stream == stream
  {
  }

  lemma NothingTaken(done: seq<Candidate>, stream: seq<Candidate>)
    ensures done + stream[..0] == done
  {
  }

  lemma StreamStep(done: seq<Candidate>, stream: seq<Candidate>, k: nat)
    requires k < |stream|
    ensures done + stream[..k] + [stream[k]] == done + stream[..k + 1]
    ensures DistinctIds(done + stream) ==> DistinctIds(done + stream[..k + 1])
    ensures CanonicalAll(done + stream) ==> CanonicalAll(done + stream[..k + 1])
  {
    assert done + stream == done + stream[..k + 1] + stream[k + 1..];
    SuffixFacts(done + stream[..k + 1], stream[k + 1..]);
  }

  lemma WholeStream(stream: seq<Candidate>)
    ensures stream[..|stream|] == stream
  {
  }

  lemma SuffixFacts(front: seq<Candidate>, back: seq<Candidate>)
    ensures DistinctIds(front + back) ==> DistinctIds(front) && DistinctIds(back)
    ensures CanonicalAll(front + back) ==> CanonicalAll(front) && CanonicalAll(back)
  {
    assert forall i | 0 <= i < |front| :: (front + back)[i] == front[i];
    assert forall i | 0 <= i < |back| :: (front + back)[|front| + i] == back[i];
  }
}
