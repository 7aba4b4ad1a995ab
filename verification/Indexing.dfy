/** One indexing run: the buffer of ten, the filter in front of the pool, and the counters. */
module Indexing {
  import opened Catalog
  import opened IndexPool
  import opened IndexPoolConfluence
  import opened IndexPoolSafety
  import opened Sequences

  const FRESHNESS: int := 604_800_000_000_000  // seven days in nanoseconds
  const INDEX_BATCH_SIZE: nat := 10

  datatype Skips = Skips(stars: nat, recent: nat, same: nat)

  function Itself(n: nat): nat {
    n
  }

  /** The counters of a run: those of the filter, and those of the pool. */
  datatype Stats = Stats(discovered: nat, skipped: Skips, tally: Tally)
  {
    function Add(batch: Stats): Stats {
      Stats(discovered + batch.discovered,
            Skips(skipped.stars + batch.skipped.stars, skipped.recent + batch.skipped.recent,
                  skipped.same + batch.skipped.same),
            Tally(tally.stored + batch.tally.stored, tally.weak + batch.tally.weak, tally.failed + batch.tally.failed))
    }

    /** The candidates whose fate has been counted. */
    function Accounted(): nat {
      Sum(Itself, [tally.stored, tally.weak, tally.failed, skipped.stars, skipped.recent, skipped.same])
    }
  }

  const NO_STATS := Stats(0, Skips(0, 0, 0), Tally(0, 0, 0))

  lemma AccountedIs(s: Stats)
    ensures s.Accounted() ==
      s.tally.stored + s.tally.weak + s.tally.failed + s.skipped.stars + s.skipped.recent + s.skipped.same
  {
    SumOfSix(s.tally.stored, s.tally.weak, s.tally.failed, s.skipped.stars, s.skipped.recent, s.skipped.same);
  }

  lemma SumOfSix(a: nat, b: nat, c: nat, d: nat, e: nat, f: nat)
    ensures Sum(Itself, [a, b, c, d, e, f]) == a + b + c + d + e + f
  {
    assert [a, b, c, d, e, f][1..] == [b, c, d, e, f] && [b, c, d, e, f][1..] == [c, d, e, f];
    assert [c, d, e, f][1..] == [d, e, f] && [d, e, f][1..] == [e, f] && [e, f][1..] == [f] && [f][1..] == [];
    assert Sum(Itself, [f]) == f;
    assert Sum(Itself, [e, f]) == e + f;
    assert Sum(Itself, [d, e, f]) == d + e + f;
    assert Sum(Itself, [c, d, e, f]) == c + d + e + f;
    assert Sum(Itself, [b, c, d, e, f]) == b + c + d + e + f;
  }

  lemma CountsAdd(a: Stats, b: Stats)
    ensures a.Add(b).Accounted() == a.Accounted() + b.Accounted()
  {
    AccountedIs(a);
    AccountedIs(b);
    AccountedIs(a.Add(b));
  }

  /** Nothing has been counted. */
  predicate IsBlank(s: Stats) {
    && s.discovered == 0 && s.skipped.stars == 0 && s.skipped.recent == 0 && s.skipped.same == 0
    && s.tally.stored == 0 && s.tally.weak == 0 && s.tally.failed == 0
  }

  lemma BlankIsNone(s: Stats)
    requires IsBlank(s)
    ensures s == NO_STATS && s.Accounted() == 0
  {
    AccountedIs(s);
  }

  /** What the run knew about the table when it started. */
  datatype Snapshot = Snapshot(freshIds: set<string>, hashes: map<string, string>)

  predicate SkipFresh(sn: Snapshot, c: Candidate) {
    c.knownFresh || c.id in sn.freshIds
  }

  predicate SkipStars(sn: Snapshot, c: Candidate) {
    !SkipFresh(sn, c) && c.stars <= 10
  }

  predicate SkipUnchanged(env: Env, sn: Snapshot, c: Candidate) {
    !SkipFresh(sn, c) && c.stars > 10 && c.id in sn.hashes && sn.hashes[c.id] == env.hash(c.files)
  }

  predicate IsEligible(env: Env, sn: Snapshot, c: Candidate) {
    !SkipFresh(sn, c) && !SkipStars(sn, c) && !SkipUnchanged(env, sn, c)
  }

  function Eligible(env: Env, sn: Snapshot, cs: seq<Candidate>): seq<Candidate> {
    if cs == [] then []
    else
      var front, c := Eligible(env, sn, cs[..|cs| - 1]), cs[|cs| - 1];
      if IsEligible(env, sn, c) then front + [c] else front
  }

  function SkipOne(env: Env, sn: Snapshot, s: Stats, c: Candidate): Stats {
    s.(discovered := s.discovered + 1,
       skipped := Skips(s.skipped.stars + (if SkipStars(sn, c) then 1 else 0),
                        s.skipped.recent + (if SkipFresh(sn, c) then 1 else 0),
                        s.skipped.same + (if SkipUnchanged(env, sn, c) then 1 else 0)))
  }

  /** The counters after filtering `cs`, before any of the eligible candidates is handled. */
  function Skipped(env: Env, sn: Snapshot, cs: seq<Candidate>): Stats {
    if cs == [] then NO_STATS else SkipOne(env, sn, Skipped(env, sn, cs[..|cs| - 1]), cs[|cs| - 1])
  }

  function WithTally(s: Stats, t: Tally): Stats {
    s.(tally := t)
  }

  lemma {:induction false} SiftCounts(env: Env, sn: Snapshot, cs: seq<Candidate>)
    ensures var s := Skipped(env, sn, cs);
      && s.discovered == |cs|
      && s.skipped.stars + s.skipped.recent + s.skipped.same + |Eligible(env, sn, cs)| == |cs|
      && s.tally == Tally(0, 0, 0)
    ensures forall c | c in Eligible(env, sn, cs) :: c in cs && IsEligible(env, sn, c)
  {
    if cs != [] {
      var front := cs[..|cs| - 1];
      SiftCounts(env, sn, front);
      assert forall c | c in front :: c in cs;
    }
  }

  /** A candidate that was seen lately: known as fresh to its source, or among the fresh identities. */
  predicate SeenLately(freshIds: set<string>, c: Candidate) {
    c.knownFresh || c.id in freshIds
  }

  /** A stored hash is that of the candidate's files. */
  predicate SameFiles(hashes: map<string, string>, hash: seq<File> -> string, c: Candidate) {
    c.id in hashes && hashes[c.id] == hash(c.files)
  }

  /** The filter in plain words: it counts the candidates seen lately, of the others those with ten stars or
      fewer, of the others those whose files are stored already, and lets all others through, in order. */
  ghost predicate FilteredAs(freshIds: set<string>, hashes: map<string, string>, hash: seq<File> -> string,
                             cs: seq<Candidate>, skipped: Skips, eligible: seq<Candidate>) {
    && skipped.recent == CountWhere((c: Candidate) => SeenLately(freshIds, c), cs)
    && skipped.stars == CountWhere((c: Candidate) => !SeenLately(freshIds, c) && c.stars <= 10, cs)
    && skipped.same ==
         CountWhere((c: Candidate) => !SeenLately(freshIds, c) && c.stars > 10 && SameFiles(hashes, hash, c), cs)
    && |eligible| ==
         CountWhere((c: Candidate) => !SeenLately(freshIds, c) && c.stars > 10 && !SameFiles(hashes, hash, c), cs)
    && forall c :: c in eligible <==>
         c in cs && !SeenLately(freshIds, c) && c.stars > 10 && !SameFiles(hashes, hash, c)
  }

  lemma FilteredOneMore(env: Env, sn: Snapshot, front: seq<Candidate>, c: Candidate, before: Stats,
                        eligible: seq<Candidate>)
    requires FilteredAs(sn.freshIds, sn.hashes, env.hash, front, before.skipped, eligible)
    ensures FilteredAs(sn.freshIds, sn.hashes, env.hash, front + [c], SkipOne(env, sn, before, c).skipped,
                       if IsEligible(env, sn, c) then eligible + [c] else eligible)
  {
    CountOneMore(front, c);
  }

  lemma {:induction false} FilterMeans(env: Env, sn: Snapshot, cs: seq<Candidate>)
    ensures FilteredAs(sn.freshIds, sn.hashes, env.hash, cs, Skipped(env, sn, cs).skipped, Eligible(env, sn, cs))
  {
    if cs != [] {
      var front, c := cs[..|cs| - 1], cs[|cs| - 1];
      FilterMeans(env, sn, front);
      FilteredOneMore(env, sn, front, c, Skipped(env, sn, front), Eligible(env, sn, front));
      assert cs == front + [c];
    }
  }

  /** `c` counts what `a` and `b` count together. */
  predicate Together(a: Skips, b: Skips, c: Skips) {
    c.stars == a.stars + b.stars && c.recent == a.recent + b.recent && c.same == a.same + b.same
  }

  lemma SkippedOneMore(env: Env, sn: Snapshot, front: seq<Candidate>, c: Candidate)
    ensures Skipped(env, sn, front + [c]) == SkipOne(env, sn, Skipped(env, sn, front), c)
  {
    assert (front + [c])[..|front|] == front;
  }

  lemma SkipsExtend(env: Env, sn: Snapshot, p: seq<Candidate>, front: seq<Candidate>, c: Candidate, q: seq<Candidate>,
                    whole: seq<Candidate>)
    requires Together(Skipped(env, sn, p).skipped, Skipped(env, sn, front).skipped, Skipped(env, sn, p + front).skipped)
    requires q == front + [c] && whole == p + front + [c]
    ensures Together(Skipped(env, sn, p).skipped, Skipped(env, sn, q).skipped, Skipped(env, sn, whole).skipped)
  {
    SkippedOneMore(env, sn, p + front, c);
    SkippedOneMore(env, sn, front, c);
  }

  /** The filter's counters add up over batches. */
  lemma {:induction false} SkippedConcat(env: Env, sn: Snapshot, p: seq<Candidate>, q: seq<Candidate>)
    ensures Together(Skipped(env, sn, p).skipped, Skipped(env, sn, q).skipped, Skipped(env, sn, p + q).skipped)
    decreases |q|
  {
    if q == [] {
      assert p + q == p;
    } else {
      SkippedConcat(env, sn, p, q[..|q| - 1]);
      LastElement(p, q);
      SkipsExtend(env, sn, p, q[..|q| - 1], q[|q| - 1], q, p + q);
    }
  }

  /** A candidate that is not fresh and has enough stars. */
  predicate Worthy(freshIds: set<string>, c: Candidate) {
    c.id !in freshIds && !c.knownFresh && c.stars > 10
  }

  lemma {:induction false} WorthyNotSkipped(env: Env, sn: Snapshot, cs: seq<Candidate>)
    requires forall k | 0 <= k < |cs| :: Worthy(sn.freshIds, cs[k])
    ensures Skipped(env, sn, cs).skipped.stars == 0 && Skipped(env, sn, cs).skipped.recent == 0
  {
    if cs != [] {
      var n := |cs| - 1;
      assert forall k | 0 <= k < n :: cs[..n][k] == cs[k];
      WorthyNotSkipped(env, sn, cs[..n]);
      assert Worthy(sn.freshIds, cs[n]);
    }
  }

  predicate NotAmong(id: string, cs: seq<Candidate>) {
    forall i | 0 <= i < |cs| :: cs[i].id != id
  }

  /** Nothing has happened to the rows of other identities. */
  ghost predicate TableKept(before: Rows, after: Rows, cs: seq<Candidate>) {
    forall id: string :: NotAmong(id, cs) ==> Unchanged(before, after, id)
  }

  lemma NotAmongEligible(env: Env, sn: Snapshot, cs: seq<Candidate>, id: string)
    requires NotAmong(id, cs)
    ensures NotAmong(id, Eligible(env, sn, cs))
  {
    SiftCounts(env, sn, cs);
    var kept := Eligible(env, sn, cs);
    forall i | 0 <= i < |kept|
      ensures kept[i].id != id
    {
      assert kept[i] in cs;
    }
  }

  /** Nothing has happened to the rows of identities that the filter lets nothing through for. */
  ghost predicate OthersKept(env: Env, sn: Snapshot, before: Rows, after: Rows, cs: seq<Candidate>) {
    TableKept(before, after, Eligible(env, sn, cs))
  }

  lemma OthersKeptMeans(env: Env, sn: Snapshot, before: Rows, after: Rows, cs: seq<Candidate>)
    requires OthersKept(env, sn, before, after, cs)
    ensures TableKept(before, after, cs)
  {
    forall id: string | NotAmong(id, cs)
      ensures Unchanged(before, after, id)
    {
      NotAmongEligible(env, sn, cs, id);
    }
  }

  /** A pool over the eligible candidates of a batch leaves the rows of all other identities alone. */
  lemma FoldKeepsOthers(b: Batch, rows: Rows, rs: seq<Result>)
    ensures TableKept(rows, Fold(b, rows, rs), b.eligible)
  {
    forall id: string | NotAmong(id, b.eligible)
      ensures Unchanged(rows, Fold(b, rows, rs), id)
    {
      FoldMisses(b, rows, rs, id);
    }
  }

  lemma EligibleOneMore(env: Env, sn: Snapshot, front: seq<Candidate>, c: Candidate)
    ensures Eligible(env, sn, front + [c]) ==
      if IsEligible(env, sn, c) then Eligible(env, sn, front) + [c] else Eligible(env, sn, front)
  {
    assert (front + [c])[..|front|] == front;
  }

  lemma EligibleExtends(env: Env, sn: Snapshot, p: seq<Candidate>, front: seq<Candidate>, c: Candidate,
                        q: seq<Candidate>, whole: seq<Candidate>)
    requires Eligible(env, sn, p + front) == Eligible(env, sn, p) + Eligible(env, sn, front)
    requires q == front + [c] && whole == p + front + [c]
    ensures Eligible(env, sn, whole) == Eligible(env, sn, p) + Eligible(env, sn, q)
  {
    EligibleOneMore(env, sn, p + front, c);
    EligibleOneMore(env, sn, front, c);
  }

  /** Filtering batch after batch lets through what filtering everything at once would. */
  lemma {:induction false} EligibleConcat(env: Env, sn: Snapshot, p: seq<Candidate>, q: seq<Candidate>)
    ensures Eligible(env, sn, p + q) == Eligible(env, sn, p) + Eligible(env, sn, q)
    decreases |q|
  {
    if q == [] {
      assert p + q == p;
    } else {
      EligibleConcat(env, sn, p, q[..|q| - 1]);
      LastElement(p, q);
      EligibleExtends(env, sn, p, q[..|q| - 1], q[|q| - 1], q, p + q);
    }
  }

  /** What two batches, one after the other, leave alone. */
  lemma KeptOn(env: Env, sn: Snapshot, start: Rows, table: Rows, table': Rows, done: seq<Candidate>,
               full: seq<Candidate>)
    requires OthersKept(env, sn, start, table, done) && OthersKept(env, sn, table, table', full)
    ensures OthersKept(env, sn, start, table', done + full)
  {
    EligibleConcat(env, sn, done, full);
    KeptInBoth(start, table, table', Eligible(env, sn, done), Eligible(env, sn, full));
  }

  lemma KeptInBoth(start: Rows, table: Rows, table': Rows, p: seq<Candidate>, q: seq<Candidate>)
    requires TableKept(start, table, p) && TableKept(table, table', q)
    ensures TableKept(start, table', p + q)
  {
    forall id: string | NotAmong(id, p + q)
      ensures Unchanged(start, table', id)
    {
      assert forall i | 0 <= i < |p| :: (p + q)[i] == p[i];
      assert forall i | 0 <= i < |q| :: (p + q)[|p| + i] == q[i];
      assert NotAmong(id, p) && NotAmong(id, q);
      assert Unchanged(start, table, id) && Unchanged(table, table', id);
    }
  }

  /** Where a row has not been touched, hashes loaded earlier filter as hashes looked up now. */
  lemma LookupsAgree(env: Env, freshIds: set<string>, before: Rows, now: Rows, c: Candidate)
    requires Unchanged(before, now, c.id)
    ensures var loaded, live := Snapshot(freshIds, HashesOf(before)), Snapshot(freshIds, HashesOf(now));
      SkipUnchanged(env, loaded, c) == SkipUnchanged(env, live, c)
        && IsEligible(env, loaded, c) == IsEligible(env, live, c)
  {
  }

  lemma {:induction false} EligibleIndex(env: Env, sn: Snapshot, cs: seq<Candidate>, i: nat, j: nat)
    returns (k: nat, m: nat)
    requires i < j < |Eligible(env, sn, cs)|
    ensures k < m < |cs| && cs[k] == Eligible(env, sn, cs)[i] && cs[m] == Eligible(env, sn, cs)[j]
    decreases |cs|
  {
    var n := |cs| - 1;
    var front := cs[..n];
    var kept := Eligible(env, sn, front);
    if j < |kept| {
      k, m := EligibleIndex(env, sn, front, i, j);
    } else {
      SiftCounts(env, sn, front);
      assert kept[i] in front;
      k :| 0 <= k < n && front[k] == kept[i];
      m := n;
    }
  }

  lemma EligibleDistinct(env: Env, sn: Snapshot, cs: seq<Candidate>)
    requires DistinctIds(cs)
    ensures DistinctIds(Eligible(env, sn, cs))
  {
    var kept := Eligible(env, sn, cs);
    forall i, j | 0 <= i < j < |kept|
      ensures kept[i].id != kept[j].id
    {
      var k, m := EligibleIndex(env, sn, cs, i, j);
    }
  }

  // --- One loop over all candidates ----------------------------------------------------------

  /** The rules of the index applied to one candidate after another, on a table without timestamps;
      `hashes` is where content hashes are looked up: a snapshot, or the table itself. */
  function Step(env: Env, verdict: string -> Assessment, sn: Snapshot, before: (Rows, Stats), c: Candidate)
    : (Rows, Stats)
  {
    var (rows, s0) := before;
    var s := s0.(discovered := s0.discovered + 1);
    if SkipFresh(sn, c) then (rows, s.(skipped := s.skipped.(recent := s.skipped.recent + 1)))
    else if SkipStars(sn, c) then (rows, s.(skipped := s.skipped.(stars := s.skipped.stars + 1)))
    else if SkipUnchanged(env, sn, c) then (rows, s.(skipped := s.skipped.(same := s.skipped.same + 1)))
    else match Decide(env, verdict, c)
      case Remove => (rows - {c.id}, s.(tally := s.tally.(weak := s.tally.weak + 1)))
      case Reject => (rows, s.(tally := s.tally.(failed := s.tally.failed + 1)))
      case Publish(row) => (rows[c.id := row], s.(tally := s.tally.(stored := s.tally.stored + 1)))
  }

  function Loop(env: Env, verdict: string -> Assessment, sn: Snapshot, rows: Rows, cs: seq<Candidate>): (Rows, Stats) {
    if cs == [] then (rows, NO_STATS)
    else Step(env, verdict, sn, Loop(env, verdict, sn, rows, cs[..|cs| - 1]), cs[|cs| - 1])
  }

  function HashesOf(rows: Rows): map<string, string> {
    map id | id in rows :: rows[id].hash
  }

  /** The same loop, looking hashes up in the table as it is at that moment. */
  function LiveLoop(env: Env, verdict: string -> Assessment, freshIds: set<string>, rows: Rows, cs: seq<Candidate>)
    : (Rows, Stats)
  {
    if cs == [] then (rows, NO_STATS)
    else
      var before := LiveLoop(env, verdict, freshIds, rows, cs[..|cs| - 1]);
      Step(env, verdict, Snapshot(freshIds, HashesOf(before.0)), before, cs[|cs| - 1])
  }

  lemma {:induction false} LoopMisses(env: Env, verdict: string -> Assessment, sn: Snapshot, rows: Rows,
                                      cs: seq<Candidate>, id: string)
    requires forall i | 0 <= i < |cs| :: cs[i].id != id
    ensures var after := Loop(env, verdict, sn, rows, cs).0;
      (id in after <==> id in rows) && (id in rows ==> after[id] == rows[id])
  {
    if cs != [] {
      var front := cs[..|cs| - 1];
      assert forall i | 0 <= i < |front| :: front[i] == cs[i];
      assert cs[|cs| - 1].id != id;
      LoopMisses(env, verdict, sn, rows, front, id);
    }
  }

  /** The snapshot loaded once agrees with the live table for every candidate at the moment it is
      filtered, because no id is yielded twice. */
  lemma {:induction false} SnapshotAgrees(env: Env, verdict: string -> Assessment, freshIds: set<string>, rows: Rows,
                                          cs: seq<Candidate>)
    requires DistinctIds(cs)
    ensures Loop(env, verdict, Snapshot(freshIds, HashesOf(rows)), rows, cs) ==
      LiveLoop(env, verdict, freshIds, rows, cs)
  {
    if cs != [] {
      var front, c := cs[..|cs| - 1], cs[|cs| - 1];
      assert forall i | 0 <= i < |front| :: front[i] == cs[i];
      SnapshotAgrees(env, verdict, freshIds, rows, front);
      var sn := Snapshot(freshIds, HashesOf(rows));
      assert forall i | 0 <= i < |front| :: front[i].id != c.id;
      LoopMisses(env, verdict, sn, rows, front, c.id);
      var before := Loop(env, verdict, sn, rows, front);
      assert SkipUnchanged(env, sn, c) == SkipUnchanged(env, Snapshot(freshIds, HashesOf(before.0)), c);
    }
  }

  /** Counters of an earlier stretch of the loop are carried along. */
  lemma StepAdds(env: Env, verdict: string -> Assessment, sn: Snapshot, rows: Rows, s1: Stats, s2: Stats, c: Candidate)
    ensures Step(env, verdict, sn, (rows, s1.Add(s2)), c)
         == (Step(env, verdict, sn, (rows, s2), c).0, s1.Add(Step(env, verdict, sn, (rows, s2), c).1))
  {
  }

  lemma LoopOneMore(env: Env, verdict: string -> Assessment, sn: Snapshot, rows: Rows, front: seq<Candidate>,
                    c: Candidate)
    ensures Loop(env, verdict, sn, rows, front + [c]) == Step(env, verdict, sn, Loop(env, verdict, sn, rows, front), c)
  {
    assert (front + [c])[..|front|] == front;
  }

  /** `whole` is `first` and `second`, one after the other. */
  predicate Composed(first: (Rows, Stats), second: (Rows, Stats), whole: (Rows, Stats)) {
    whole == (second.0, first.1.Add(second.1))
  }

  lemma ComposedStep(env: Env, verdict: string -> Assessment, sn: Snapshot, first: (Rows, Stats), second: (Rows, Stats),
                     whole: (Rows, Stats), c: Candidate)
    requires Composed(first, second, whole)
    ensures Composed(first, Step(env, verdict, sn, second, c), Step(env, verdict, sn, whole, c))
  {
    StepAdds(env, verdict, sn, second.0, first.1, second.1, c);
  }

  lemma LoopsExtend(env: Env, verdict: string -> Assessment, sn: Snapshot, rows: Rows, p: seq<Candidate>,
                    front: seq<Candidate>, c: Candidate, q: seq<Candidate>, whole: seq<Candidate>)
    requires var first := Loop(env, verdict, sn, rows, p);
      Composed(first, Loop(env, verdict, sn, first.0, front), Loop(env, verdict, sn, rows, p + front))
    requires q == front + [c] && whole == p + front + [c]
    ensures var first := Loop(env, verdict, sn, rows, p);
      Composed(first, Loop(env, verdict, sn, first.0, q), Loop(env, verdict, sn, rows, whole))
  {
    var first := Loop(env, verdict, sn, rows, p);
    LoopOneMore(env, verdict, sn, rows, p + front, c);
    LoopOneMore(env, verdict, sn, first.0, front, c);
    ComposedStep(env, verdict, sn, first, Loop(env, verdict, sn, first.0, front),
                 Loop(env, verdict, sn, rows, p + front), c);
  }

  lemma {:induction false} LoopsCompose(env: Env, verdict: string -> Assessment, sn: Snapshot, rows: Rows,
                                        p: seq<Candidate>, q: seq<Candidate>)
    ensures var first := Loop(env, verdict, sn, rows, p);
      Composed(first, Loop(env, verdict, sn, first.0, q), Loop(env, verdict, sn, rows, p + q))
    decreases |q|
  {
    if q == [] {
      assert p + q == p;
    } else {
      LoopsCompose(env, verdict, sn, rows, p, q[..|q| - 1]);
      LastElement(p, q);
      LoopsExtend(env, verdict, sn, rows, p, q[..|q| - 1], q[|q| - 1], q, p + q);
    }
  }

  lemma LoopConcat(env: Env, verdict: string -> Assessment, sn: Snapshot, rows: Rows, p: seq<Candidate>,
                   q: seq<Candidate>)
    ensures var first := Loop(env, verdict, sn, rows, p);
      var second := Loop(env, verdict, sn, first.0, q);
      Loop(env, verdict, sn, rows, p + q) == (second.0, first.1.Add(second.1))
  {
    LoopsCompose(env, verdict, sn, rows, p, q);
  }

  lemma TimelessUpdate(rows: Rows, id: string, row: Row)
    requires Timeless(row) == row
    ensures TimelessRows(rows[id := row]) == TimelessRows(rows)[id := row]
    ensures TimelessRows(rows - {id}) == TimelessRows(rows) - {id}
  {
  }

  lemma SequentialOneMore(env: Env, verdict: string -> Assessment, rows: Rows, kept: seq<Candidate>, c: Candidate)
    ensures var (before, tally) := Sequential(env, verdict, rows, kept);
      Sequential(env, verdict, rows, kept + [c]) ==
        match Decide(env, verdict, c)
        case Remove => (before - {c.id}, tally.(weak := tally.weak + 1))
        case Reject => (before, tally.(failed := tally.failed + 1))
        case Publish(row) => (before[c.id := row], tally.(stored := tally.stored + 1))
  {
    assert (kept + [c])[..|kept|] == kept;
  }

  lemma DecidedIsTimeless(env: Env, verdict: string -> Assessment, c: Candidate)
    ensures Decide(env, verdict, c).Publish? ==> Timeless(Decide(env, verdict, c).row) == Decide(env, verdict, c).row
  {
  }

  /** One step of the loop is the filter, followed by one step of the sequential reference. */
  lemma StepIsSequential(env: Env, verdict: string -> Assessment, sn: Snapshot, rows: Rows, kept: seq<Candidate>,
                         skipped: Stats, c: Candidate)
    ensures IsEligible(env, sn, c) ==>
      var (before, tally) := Sequential(env, verdict, rows, kept);
      var (after, tally') := Sequential(env, verdict, rows, kept + [c]);
      Step(env, verdict, sn, (TimelessRows(before), WithTally(skipped, tally)), c)
      == (TimelessRows(after), WithTally(skipped.(discovered := skipped.discovered + 1), tally'))
  {
    SequentialOneMore(env, verdict, rows, kept, c);
    DecidedIsTimeless(env, verdict, c);
    var before := Sequential(env, verdict, rows, kept).0;
    var row := match Decide(env, verdict, c)
               case Publish(row) => row
               case _ => Timeless(RowFor(env, c, UNCHECKED, false, 0));
    TimelessUpdate(before, c.id, row);
  }

  lemma SkipIsSkipped(env: Env, verdict: string -> Assessment, sn: Snapshot, rows: Rows, skipped: Stats, tally: Tally,
                      c: Candidate)
    requires !IsEligible(env, sn, c)
    ensures Step(env, verdict, sn, (rows, WithTally(skipped, tally)), c) ==
      (rows, WithTally(SkipOne(env, sn, skipped, c), tally))
  {
  }

  lemma {:induction false} LoopIsSequential(env: Env, verdict: string -> Assessment, sn: Snapshot, rows: Rows,
                                            cs: seq<Candidate>)
    ensures var (after, tally) := Sequential(env, verdict, rows, Eligible(env, sn, cs));
      Loop(env, verdict, sn, TimelessRows(rows), cs) == (TimelessRows(after), WithTally(Skipped(env, sn, cs), tally))
  {
    if cs != [] {
      var front, c := cs[..|cs| - 1], cs[|cs| - 1];
      LoopIsSequential(env, verdict, sn, rows, front);
      var kept, skipped := Eligible(env, sn, front), Skipped(env, sn, front);
      var (before, tally) := Sequential(env, verdict, rows, kept);
      if IsEligible(env, sn, c) {
        StepIsSequential(env, verdict, sn, rows, kept, skipped, c);
        assert skipped.(discovered := skipped.discovered + 1) == SkipOne(env, sn, skipped, c);
      } else {
        SkipIsSkipped(env, verdict, sn, TimelessRows(before), skipped, tally, c);
      }
    }
  }

  lemma TimelessHashes(rows: Rows)
    ensures HashesOf(TimelessRows(rows)) == HashesOf(rows)
  {
  }

  /** What the rules amount to for a whole run over distinct identities: how each candidate is counted, what
      becomes of the row of each one that is let through, and that no other row changes. */
  ghost predicate Ruled(env: Env, verdict: string -> Assessment, freshIds: set<string>, start: Rows, cs: seq<Candidate>,
                        after: Rows, stats: Stats) {
    var due := Eligible(env, Snapshot(freshIds, HashesOf(start)), cs);
    && stats.discovered == |cs|
    && FilteredAs(freshIds, HashesOf(start), env.hash, cs, stats.skipped, due)
    && Tallied(env, verdict, due, stats.tally)
    && (forall i | 0 <= i < |due| :: Fated(env, verdict, start, after, due[i]))
    && (forall id: string | NotAmong(id, due) :: SameAt(after, start, id))
  }

  lemma SequentialRuled(env: Env, verdict: string -> Assessment, freshIds: set<string>, start: Rows, cs: seq<Candidate>)
    requires DistinctIds(cs)
    ensures var sn := Snapshot(freshIds, HashesOf(start));
      var (after, tally) := Sequential(env, verdict, start, Eligible(env, sn, cs));
      Ruled(env, verdict, freshIds, start, cs, after, WithTally(Skipped(env, sn, cs), tally))
  {
    var sn := Snapshot(freshIds, HashesOf(start));
    var due := Eligible(env, sn, cs);
    EligibleDistinct(env, sn, cs);
    SequentialMeans(env, verdict, start, due);
    FilterMeans(env, sn, cs);
    SiftCounts(env, sn, cs);
    forall id: string | NotAmong(id, due)
      ensures SameAt(Sequential(env, verdict, start, due).0, start, id)
    {
      assert forall i | 0 <= i < |due| :: due[i].id != id;
    }
  }

  lemma RuledTimeless(env: Env, verdict: string -> Assessment, freshIds: set<string>, start: Rows, cs: seq<Candidate>,
                      after: Rows, stats: Stats, table: Rows)
    requires Ruled(env, verdict, freshIds, start, cs, after, stats) && TimelessRows(table) == TimelessRows(after)
    ensures Ruled(env, verdict, freshIds, start, cs, table, stats)
  {
    forall id: string
      ensures SameAt(table, after, id)
    {
      assert id in TimelessRows(table) <==> id in TimelessRows(after);
      if id in table {
        assert TimelessRows(table)[id] == TimelessRows(after)[id];
      }
    }
    var due := Eligible(env, Snapshot(freshIds, HashesOf(start)), cs);
    forall i | 0 <= i < |due|
      ensures Fated(env, verdict, start, table, due[i])
    {
      assert Fated(env, verdict, start, after, due[i]) && SameAt(table, after, due[i].id);
    }
    forall id: string | NotAmong(id, due)
      ensures SameAt(table, start, id)
    {
      assert SameAt(table, after, id) && SameAt(after, start, id);
    }
  }

  /** The meaning of the live loop, for the table of a run that ended as the loop does. */
  lemma LiveLoopMeans(env: Env, verdict: string -> Assessment, freshIds: set<string>, start: Rows, cs: seq<Candidate>,
                      table: Rows, stats: Stats)
    requires DistinctIds(cs)
    requires (TimelessRows(table), stats) == LiveLoop(env, verdict, freshIds, TimelessRows(start), cs)
    ensures Ruled(env, verdict, freshIds, start, cs, table, stats)
  {
    var sn := Snapshot(freshIds, HashesOf(start));
    TimelessHashes(start);
    SnapshotAgrees(env, verdict, freshIds, TimelessRows(start), cs);
    LoopIsSequential(env, verdict, sn, start, cs);
    SequentialRuled(env, verdict, freshIds, start, cs);
    var after := Sequential(env, verdict, start, Eligible(env, sn, cs)).0;
    RuledTimeless(env, verdict, freshIds, start, cs, after, stats, table);
  }

  /** A candidate that the rules store. */
  predicate Stores(env: Env, verdict: string -> Assessment, freshIds: set<string>, hashes: map<string, string>,
                   c: Candidate) {
    && !SeenLately(freshIds, c) && c.stars > 10 && !SameFiles(hashes, env.hash, c)
    && (env.auditing ==> !Fails(verdict(c.contents))) && !Unstorable(c)
  }

  lemma StoredRow(env: Env, verdict: string -> Assessment, freshIds: set<string>, start: Rows, cs: seq<Candidate>,
                  table: Rows, stats: Stats, i: nat)
    requires Ruled(env, verdict, freshIds, start, cs, table, stats) && i < |cs|
    requires Stores(env, verdict, freshIds, HashesOf(start), cs[i])
    ensures cs[i].id in table && table[cs[i].id].hash == env.hash(cs[i].files)
    ensures table[cs[i].id].llmChecked == env.auditing
  {
    var due := Eligible(env, Snapshot(freshIds, HashesOf(start)), cs);
    assert cs[i] in cs;
    assert cs[i] in due;
    var k :| 0 <= k < |due| && due[k] == cs[i];
    assert Fated(env, verdict, start, table, due[k]);
  }

  /** A later run meets a stored candidate again, no longer fresh: with the same content hash it is counted
      as unchanged and its row is left alone, with another one it is let through. */
  lemma SeenAgain(env: Env, table: Rows, freshIds: set<string>, start: Rows, cs: seq<Candidate>, after: Rows, j: nat,
                  hash: string)
    requires j < |cs| && !SeenLately(freshIds, cs[j]) && cs[j].stars > 10
    requires cs[j].id in table && table[cs[j].id].hash == hash && Unchanged(table, start, cs[j].id)
    requires DistinctIds(cs) && OthersKept(env, Snapshot(freshIds, HashesOf(start)), start, after, cs)
    ensures SameFiles(HashesOf(start), env.hash, cs[j]) <==> env.hash(cs[j].files) == hash
    ensures env.hash(cs[j].files) == hash ==> Unchanged(table, after, cs[j].id)
    ensures env.hash(cs[j].files) != hash ==> cs[j] in Eligible(env, Snapshot(freshIds, HashesOf(start)), cs)
  {
    var sn := Snapshot(freshIds, HashesOf(start));
    var due := Eligible(env, sn, cs);
    FilterMeans(env, sn, cs);
    assert cs[j] in cs;
    if env.hash(cs[j].files) == hash {
      assert cs[j] !in due;
      SiftCounts(env, sn, cs);
      forall k | 0 <= k < |due|
        ensures due[k].id != cs[j].id
      {
        assert due[k] in due;
        var m :| 0 <= m < |cs| && cs[m] == due[k];
        assert m != j;
      }
      assert NotAmong(cs[j].id, due);
    }
  }
}
