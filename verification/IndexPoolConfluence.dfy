/** Every schedule of the pool that returns no error leaves the table and the counters that one loop
    over the candidates would leave. */
module IndexPoolConfluence {
  import opened Catalog
  import opened IndexPool
  import opened IndexPoolProgress
  import opened IndexPoolSafety
  import opened IndexPoolOutcome
  import opened Sequences

  /** What the rules of the index ask for one candidate, time aside. */
  datatype Decision = Remove | Reject | Publish(row: Row)

  function Decide(env: Env, verdict: string -> Assessment, c: Candidate): Decision {
    if env.auditing && !Passing(verdict(c.contents)) then Remove
    else if !Storable(c.files) then Reject
    else Publish(Timeless(RowFor(env, c, if env.auditing then verdict(c.contents) else UNCHECKED, env.auditing, 0)))
  }

  /** One loop over the candidates, in order. */
  function Sequential(env: Env, verdict: string -> Assessment, rows: Rows, cs: seq<Candidate>): (Rows, Tally) {
    if cs == [] then (rows, Tally(0, 0, 0))
    else
      var c := cs[|cs| - 1];
      var (before, tally) := Sequential(env, verdict, rows, cs[..|cs| - 1]);
      match Decide(env, verdict, c)
      case Remove => (before - {c.id}, tally.(weak := tally.weak + 1))
      case Reject => (before, tally.(failed := tally.failed + 1))
      case Publish(row) => (before[c.id := row], tally.(stored := tally.stored + 1))
  }

  /** The counters of the loop, by what each of them counts: candidates whose answer does not pass, of the
      others those with files that cannot be stored, and those that are stored. */
  ghost predicate Tallied(env: Env, verdict: string -> Assessment, cs: seq<Candidate>, tally: Tally) {
    && tally.weak == CountWhere((c: Candidate) => env.auditing && Fails(verdict(c.contents)), cs)
    && tally.failed ==
         CountWhere((c: Candidate) => !(env.auditing && Fails(verdict(c.contents))) && Unstorable(c), cs)
    && tally.stored ==
         CountWhere((c: Candidate) => !(env.auditing && Fails(verdict(c.contents))) && !Unstorable(c), cs)
  }

  predicate Fails(a: Assessment) {
    a.status != "pass" || a.score < 5 || a.quality < 5
  }

  predicate Unstorable(c: Candidate) {
    exists f | f in c.files :: !f.utf8 || '\0' in f.contents
  }

  /** The row of one candidate after a loop over distinct identities. */
  ghost predicate Fated(env: Env, verdict: string -> Assessment, before: Rows, after: Rows, c: Candidate) {
    var a := if env.auditing then verdict(c.contents) else Assessment(5, 5, "pass", "", "", []);
    if Fails(a) then c.id !in after
    else if Unstorable(c) then SameAt(after, before, c.id)
    else c.id in after && Describes(after[c.id], env, c, a, env.auditing)
  }

  /** The auditor's answers along a schedule are those of `verdict`. */
  predicate Answers(b: Batch, verdict: string -> Assessment, s: State, actions: seq<Action>)
    requires Follows(b, s, actions)
    decreases |actions|
  {
    actions == [] ||
    (&& (actions[0].AuditReturns? && actions[0].answer.Some? ==>
           actions[0].answer.value == verdict(b.eligible[s.workers[actions[0].w].job].contents))
     && Answers(b, verdict, Apply(b, s, actions[0]), actions[1..]))
  }

  lemma {:induction false} AnswersAppend(b: Batch, verdict: string -> Assessment, s: State, actions: seq<Action>,
                                         a: Action)
    requires Follows(b, s, actions) && Answers(b, verdict, s, actions) && Enabled(b, Final(b, s, actions), a)
    requires a.AuditReturns? && a.answer.Some? ==>
      a.answer.value == verdict(b.eligible[Final(b, s, actions).workers[a.w].job].contents)
    ensures Follows(b, s, actions + [a]) && Answers(b, verdict, s, actions + [a])
    decreases |actions|
  {
    FollowsAppend(b, s, actions, a);
    if actions == [] {
      assert ([] + [a])[1..] == [];
    } else {
      AnswersAppend(b, verdict, Apply(b, s, actions[0]), actions[1..], a);
      assert (actions + [a])[1..] == actions[1..] + [a];
    }
  }

  /** A settled result without error did what the rules ask. */
  ghost predicate Faithful(b: Batch, verdict: string -> Assessment, r: Result) {
    r.job < |b.eligible| && (r.fault.None? ==>
      match Decide(b.env, verdict, b.eligible[r.job])
      case Remove => r.status.Weak? && r.effect.Drop?
      case Reject => r.status.Failed? && r.effect.Keep?
      case Publish(row) => r.status.Stored? && r.effect.Put? && Timeless(r.effect.row) == row)
  }

  predicate OnTrack(b: Batch, verdict: string -> Assessment, pc: Worker) {
    match pc
    case Want(_) | Locked(_) | Waiting(_) | Auditing(_) => b.env.auditing
    case Audited(_, _) | Replied(_, _) =>
      b.env.auditing == !pc.reply.Unaudited?
      && (pc.reply.Answer? ==> pc.job < |b.eligible| && pc.reply.a == verdict(b.eligible[pc.job].contents))
    case _ => true
  }

  ghost predicate Tracked(b: Batch, verdict: string -> Assessment, s: State) {
    && (forall w | 0 <= w < |s.workers| :: OnTrack(b, verdict, s.workers[w]))
    && (forall r | r in s.settled :: Faithful(b, verdict, r))
  }

  lemma SettleFaithful(b: Batch, verdict: string -> Assessment, j: nat, reply: Reply, cancelled: Option<Cause>,
                       outcome: StoreOutcome, now: int)
    requires j < |b.eligible| && OnTrack(b, verdict, Replied(j, reply))
    ensures Faithful(b, verdict, SettleResult(b, j, reply, cancelled, outcome, now))
  {
  }

  lemma TrackWorker(b: Batch, verdict: string -> Assessment, s: State, a: Action)
    requires Enabled(b, s, a) && Moves(a) && a.w < |s.workers| && OnTrack(b, verdict, s.workers[a.w])
    requires a.AuditReturns? && a.answer.Some? ==>
      a.answer.value == verdict(b.eligible[s.workers[a.w].job].contents)
    ensures var t := Apply(b, s, a); a.w < |t.workers| && OnTrack(b, verdict, t.workers[a.w])
  {
  }

  lemma TrackStep(b: Batch, verdict: string -> Assessment, s: State, a: Action)
    requires Tracked(b, verdict, s) && Enabled(b, s, a)
    requires a.AuditReturns? && a.answer.Some? ==>
      a.answer.value == verdict(b.eligible[s.workers[a.w].job].contents)
    ensures Tracked(b, verdict, Apply(b, s, a))
  {
    if Moves(a) {
      OneMoves(b, s, a);
      TrackWorker(b, verdict, s, a);
    } else {
      CollectorFrame(b, s, a);
    }
    Frames(b, s, a);
    if a.Settle? {
      SettleFaithful(b, verdict, s.workers[a.w].job, s.workers[a.w].reply, s.cancelled, a.outcome, a.now);
    }
  }

  lemma {:induction false} TrackAlways(b: Batch, verdict: string -> Assessment, s: State, actions: seq<Action>)
    requires Tracked(b, verdict, s) && Follows(b, s, actions) && Answers(b, verdict, s, actions)
    ensures Tracked(b, verdict, Final(b, s, actions))
    decreases |actions|
  {
    if actions != [] {
      TrackStep(b, verdict, s, actions[0]);
      TrackAlways(b, verdict, Apply(b, s, actions[0]), actions[1..]);
    }
  }

  // --- Effects at distinct ids commute -------------------------------------------------------

  ghost predicate DistinctIds(cs: seq<Candidate>) {
    forall i, j | 0 <= i < j < |cs| :: cs[i].id != cs[j].id
  }

  predicate SameAt(p: Rows, q: Rows, id: string) {
    (id in p <==> id in q) && (id in p ==> Timeless(p[id]) == Timeless(q[id]))
  }

  /** Results about other identities leave a row alone. */
  lemma {:induction false} FoldMisses(b: Batch, rows: Rows, rs: seq<Result>, id: string)
    requires forall i | 0 <= i < |rs| :: rs[i].job < |b.eligible| ==> b.eligible[rs[i].job].id != id
    ensures Unchanged(rows, Fold(b, rows, rs), id)
  {
    if rs != [] {
      var front := rs[..|rs| - 1];
      assert forall i | 0 <= i < |front| :: front[i] == rs[i];
      FoldMisses(b, rows, front, id);
      assert rs[|rs| - 1].job < |b.eligible| ==> b.eligible[rs[|rs| - 1].job].id != id;
    }
  }

  /** Among results about distinct jobs with distinct ids, each one decides its own id. */
  lemma {:induction false} FoldHits(b: Batch, rows: Rows, rs: seq<Result>, i: nat)
    requires i < |rs| && DistinctIds(b.eligible)
    requires forall k | 0 <= k < |rs| :: rs[k].job < |b.eligible|
    requires forall k, m | 0 <= k < m < |rs| :: rs[k].job != rs[m].job
    ensures var id := b.eligible[rs[i].job].id;
      SameAt(Fold(b, rows, rs), ApplyEffect(rows, id, rs[i].effect), id)
    decreases |rs|
  {
    var n := |rs| - 1;
    var id := b.eligible[rs[i].job].id;
    var front := rs[..n];
    assert forall k | 0 <= k < |front| :: front[k] == rs[k];
    if i == n {
      FoldMisses(b, rows, front, id);
    } else {
      FoldHits(b, rows, front, i);
      assert rs[i].job != rs[n].job;
      assert b.eligible[rs[n].job].id != id;
    }
  }

  lemma {:induction false} SequentialMisses(env: Env, verdict: string -> Assessment, rows: Rows, cs: seq<Candidate>,
                                            id: string)
    requires forall i | 0 <= i < |cs| :: cs[i].id != id
    ensures SameAt(Sequential(env, verdict, rows, cs).0, rows, id)
  {
    if cs != [] {
      var front := cs[..|cs| - 1];
      assert forall i | 0 <= i < |front| :: front[i] == cs[i];
      SequentialMisses(env, verdict, rows, front, id);
      assert cs[|cs| - 1].id != id;
    }
  }

  ghost predicate DecidedAt(env: Env, verdict: string -> Assessment, before: Rows, after: Rows, c: Candidate) {
    match Decide(env, verdict, c)
    case Remove => c.id !in after
    case Reject => SameAt(after, before, c.id)
    case Publish(row) => c.id in after && Timeless(after[c.id]) == row
  }

  lemma {:induction false} SequentialHits(env: Env, verdict: string -> Assessment, rows: Rows, cs: seq<Candidate>,
                                          i: nat)
    requires i < |cs| && DistinctIds(cs)
    ensures DecidedAt(env, verdict, rows, Sequential(env, verdict, rows, cs).0, cs[i])
    decreases |cs|
  {
    var n := |cs| - 1;
    var front := cs[..n];
    assert forall k | 0 <= k < |front| :: front[k] == cs[k];
    if i == n {
      SequentialMisses(env, verdict, rows, front, cs[n].id);
    } else {
      SequentialHits(env, verdict, rows, front, i);
      assert cs[i].id != cs[n].id;
    }
  }

  lemma StorableIs(c: Candidate)
    ensures Unstorable(c) <==> !Storable(c.files)
  {
  }

  lemma TalliedOneMore(env: Env, verdict: string -> Assessment, front: seq<Candidate>, c: Candidate, before: Tally,
                       after: Tally)
    requires Tallied(env, verdict, front, before)
    requires after == match Decide(env, verdict, c)
                      case Remove => before.(weak := before.weak + 1)
                      case Reject => before.(failed := before.failed + 1)
                      case Publish(_) => before.(stored := before.stored + 1)
    ensures Tallied(env, verdict, front + [c], after)
  {
    CountOneMore(front, c);
    StorableIs(c);
  }

  lemma {:induction false} SequentialCounts(env: Env, verdict: string -> Assessment, rows: Rows, cs: seq<Candidate>)
    ensures Tallied(env, verdict, cs, Sequential(env, verdict, rows, cs).1)
  {
    if cs != [] {
      var front, c := cs[..|cs| - 1], cs[|cs| - 1];
      SequentialCounts(env, verdict, rows, front);
      TalliedOneMore(env, verdict, front, c, Sequential(env, verdict, rows, front).1,
                     Sequential(env, verdict, rows, cs).1);
      assert cs == front + [c];
    }
  }

  /** The meaning of the loop: what it counts, and what becomes of each candidate's row and of all others. */
  lemma SequentialMeans(env: Env, verdict: string -> Assessment, rows: Rows, cs: seq<Candidate>)
    requires DistinctIds(cs)
    ensures var (after, tally) := Sequential(env, verdict, rows, cs);
      && Tallied(env, verdict, cs, tally)
      && (forall i | 0 <= i < |cs| :: Fated(env, verdict, rows, after, cs[i]))
      && (forall id: string | (forall i | 0 <= i < |cs| :: cs[i].id != id) :: SameAt(after, rows, id))
  {
    SequentialCounts(env, verdict, rows, cs);
    var after := Sequential(env, verdict, rows, cs).0;
    forall i | 0 <= i < |cs|
      ensures Fated(env, verdict, rows, after, cs[i])
    {
      SequentialHits(env, verdict, rows, cs, i);
    }
    forall id: string | forall i | 0 <= i < |cs| :: cs[i].id != id
      ensures SameAt(after, rows, id)
    {
      SequentialMisses(env, verdict, rows, cs, id);
    }
  }

  lemma {:induction false} AboutTwice(rs: seq<Result>, k: nat, m: nat)
    requires k < m < |rs| && rs[k].job == rs[m].job
    ensures About(rs, rs[k].job) >= 2
    decreases |rs|
  {
    var n := |rs| - 1;
    if m < n {
      AboutTwice(rs[..n], k, m);
    } else {
      AboutPositive(rs[..n], k);
    }
  }

  lemma SettledJobsDiffer(rs: seq<Result>)
    requires forall j: nat :: About(rs, j) <= 1
    ensures forall k, m | 0 <= k < m < |rs| :: rs[k].job != rs[m].job
  {
    forall k, m | 0 <= k < m < |rs|
      ensures rs[k].job != rs[m].job
    {
      if rs[k].job == rs[m].job {
        AboutTwice(rs, k, m);
      }
    }
  }

  lemma StatusIsCounted(b: Batch, verdict: string -> Assessment, rows: Rows, r: Result, n: nat)
    requires 1 <= n <= |b.eligible| && r.job == n - 1 && r.fault.None? && Faithful(b, verdict, r)
    ensures Sequential(b.env, verdict, rows, b.eligible[..n]).1
         == Count(Sequential(b.env, verdict, rows, b.eligible[..n - 1]).1, r.status)
  {
    assert b.eligible[..n][..n - 1] == b.eligible[..n - 1];
    assert b.eligible[..n][n - 1] == b.eligible[n - 1];
  }

  ghost predicate CoversBelow(b: Batch, verdict: string -> Assessment, rs: seq<Result>, n: nat) {
    && (forall i | 0 <= i < |rs| :: rs[i].job < n && rs[i].fault.None? && Faithful(b, verdict, rs[i]))
    && (forall j: nat | j < n :: About(rs, j) == 1)
  }

  lemma RestIsBelow(rs: seq<Result>, n: nat, i: nat)
    requires n >= 1 && i < |rs| && rs[i].job == n - 1
    requires forall k | 0 <= k < |rs| :: rs[k].job < n
    requires forall j: nat | j < n :: About(rs, j) == 1
    ensures forall j: nat | j < n - 1 :: About(Without(rs, i), j) == 1
    ensures forall k | 0 <= k < |Without(rs, i)| :: Without(rs, i)[k].job < n - 1
  {
    var rest := Without(rs, i);
    forall j: nat
      ensures About(rest, j) == About(rs, j) - (if j == n - 1 then 1 else 0)
    {
      RemoveOne(rs, i, j);
    }
    forall k | 0 <= k < |rest|
      ensures rest[k].job < n - 1
    {
      assert rest[k] == if k < i then rs[k] else rs[k + 1];
      AboutPositive(rest, k);
    }
  }

  /** Results about the jobs below `n`, once each, each of which takes the counters one job further. */
  ghost predicate CountsUp(counts: nat -> Tally, rs: seq<Result>, n: nat) {
    && counts(0) == Tally(0, 0, 0)
    && (forall i | 0 <= i < |rs| ::
          rs[i].job < n && counts(rs[i].job + 1) == Count(counts(rs[i].job), rs[i].status))
    && (forall j: nat | j < n :: About(rs, j) == 1)
  }

  lemma DropLastJob(counts: nat -> Tally, rs: seq<Result>, n: nat, i: nat)
    requires n >= 1 && CountsUp(counts, rs, n) && i < |rs| && rs[i].job == n - 1
    ensures CountsUp(counts, Without(rs, i), n - 1)
  {
    var rest := Without(rs, i);
    RestIsBelow(rs, n, i);
    forall k | 0 <= k < |rest|
      ensures rest[k].job < n - 1 && counts(rest[k].job + 1) == Count(counts(rest[k].job), rest[k].status)
    {
      var m := if k < i then k else k + 1;
      assert rest[k] == rs[m];
    }
  }

  /** In whatever order the results come, they count as one job after the other. */
  lemma {:induction false} TallyCountsUp(counts: nat -> Tally, rs: seq<Result>, n: nat)
    requires CountsUp(counts, rs, n)
    ensures TallyOf(rs) == counts(n)
    decreases n
  {
    if n == 0 {
      if rs != [] {
        FirstJob(rs);
      }
    } else {
      var i := AboutWitness(rs, n - 1);
      RemoveOne(rs, i, 0);
      DropLastJob(counts, rs, n, i);
      TallyCountsUp(counts, Without(rs, i), n - 1);
    }
  }

  /** The counters of results about the jobs 0..n, once each, are those of the loop. */
  lemma TallyIsSequential(b: Batch, verdict: string -> Assessment, rows: Rows, rs: seq<Result>, n: nat)
    requires n <= |b.eligible| && CoversBelow(b, verdict, rs, n)
    ensures TallyOf(rs) == Sequential(b.env, verdict, rows, b.eligible[..n]).1
  {
    var counts := (k: nat) =>
      if k <= |b.eligible| then Sequential(b.env, verdict, rows, b.eligible[..k]).1 else Tally(0, 0, 0);
    assert b.eligible[..0] == [];
    forall i | 0 <= i < |rs|
      ensures counts(rs[i].job + 1) == Count(counts(rs[i].job), rs[i].status)
    {
      StatusIsCounted(b, verdict, rows, rs[i], rs[i].job + 1);
    }
    TallyCountsUp(counts, rs, n);
  }

  lemma SettledFaithful(b: Batch, verdict: string -> Assessment, rows: Rows, t: State)
    requires t.phase == Returned(None) && Settled(b, rows, t) && Tracked(b, verdict, t)
    ensures forall i | 0 <= i < |t.settled| ::
      t.settled[i].job < |b.eligible| && t.settled[i].fault.None? && Faithful(b, verdict, t.settled[i])
  {
    forall i | 0 <= i < |t.settled|
      ensures t.settled[i].job < |b.eligible| && t.settled[i].fault.None? && Faithful(b, verdict, t.settled[i])
    {
      assert t.settled[i] in t.settled;
      assert Honest(b, t.cancelled, t.settled[i]);
    }
  }

  /** Confluence. For candidates with distinct ids and an auditor that is a function of contents,
      every schedule that returns no error leaves the table of the loop, timestamps aside, and its
      counters. */
  lemma Confluence(b: Batch, verdict: string -> Assessment, shared: Shared, actions: seq<Action>)
    requires b.width >= 1 && DistinctIds(b.eligible)
    requires Follows(b, Init(b, shared), actions) && Answers(b, verdict, Init(b, shared), actions)
    requires Final(b, Init(b, shared), actions).phase == Returned(None)
    ensures var t := Final(b, Init(b, shared), actions);
      var (rows, tally) := Sequential(b.env, verdict, shared.rows, b.eligible);
      TimelessRows(t.shared.rows) == TimelessRows(rows) && t.tally == tally
  {
    var s := Init(b, shared);
    var t := Final(b, s, actions);
    BatchReturns(b, shared, actions);
    assert Settled(b, shared.rows, t);
    TrackAlways(b, verdict, s, actions);
    SettledJobsDiffer(t.settled);
    var seqRows := Sequential(b.env, verdict, shared.rows, b.eligible).0;
    SettledFaithful(b, verdict, shared.rows, t);
    forall id: string
      ensures SameAt(t.shared.rows, seqRows, id)
    {
      SameLookup(b, verdict, shared.rows, t.settled, id);
    }
    assert b.eligible[..|b.eligible|] == b.eligible;
    TallyIsSequential(b, verdict, shared.rows, t.settled, |b.eligible|);
    TimelessExtensional(t.shared.rows, seqRows);
  }

  lemma TimelessExtensional(p: Rows, q: Rows)
    requires forall id: string :: SameAt(p, q, id)
    ensures TimelessRows(p) == TimelessRows(q)
  {
    forall id: string
      ensures id in TimelessRows(p) <==> id in TimelessRows(q)
      ensures id in p ==> TimelessRows(p)[id] == TimelessRows(q)[id]
    {
      assert SameAt(p, q, id);
    }
  }

  lemma SameLookup(b: Batch, verdict: string -> Assessment, rows: Rows, rs: seq<Result>, id: string)
    requires DistinctIds(b.eligible)
    requires forall i | 0 <= i < |rs| :: rs[i].job < |b.eligible| && rs[i].fault.None? && Faithful(b, verdict, rs[i])
    requires forall k, m | 0 <= k < m < |rs| :: rs[k].job != rs[m].job
    requires forall j: nat | j < |b.eligible| :: About(rs, j) == 1
    ensures SameAt(Fold(b, rows, rs), Sequential(b.env, verdict, rows, b.eligible).0, id)
  {
    if j: nat :| j < |b.eligible| && b.eligible[j].id == id {
      var i := AboutWitness(rs, j);
      FoldHits(b, rows, rs, i);
      SequentialHits(b.env, verdict, rows, b.eligible, j);
    } else {
      FoldMisses(b, rows, rs, id);
      SequentialMisses(b.env, verdict, rows, b.eligible, id);
    }
  }

  /** What a fold leaves at an identity is what was there, or the effect of one of the results about it. */
  lemma {:induction false} FoldIsOneEffect(b: Batch, rows: Rows, rs: seq<Result>, id: string)
    requires forall i | 0 <= i < |rs| :: rs[i].job < |b.eligible|
    ensures Unchanged(rows, Fold(b, rows, rs), id)
        || exists i | 0 <= i < |rs| :: b.eligible[rs[i].job].id == id && Shows(Fold(b, rows, rs), id, rs[i].effect)
  {
    if rs != [] {
      var n := |rs| - 1;
      var front := rs[..n];
      assert forall i | 0 <= i < n :: front[i] == rs[i];
      FoldIsOneEffect(b, rows, front, id);
      if b.eligible[rs[n].job].id == id && !rs[n].effect.Keep? {
        assert Shows(Fold(b, rows, rs), id, rs[n].effect);
      } else if !Unchanged(rows, Fold(b, rows, front), id) {
        var i :| 0 <= i < n && b.eligible[front[i].job].id == id && Shows(Fold(b, rows, front), id, front[i].effect);
        assert Shows(Fold(b, rows, rs), id, rs[i].effect);
      }
    }
  }

  /** The row of an identity is exactly what an effect leaves. */
  predicate Shows(rows: Rows, id: string, e: Effect) {
    match e
    case Put(row) => id in rows && rows[id] == row
    case Drop => id !in rows
    case Keep => false
  }

  /** After any return, aborted or not: the row of every identity is as it was before the batch, or shows
      the whole effect of one eligible candidate of that identity. */
  lemma AbortIsWhole(b: Batch, shared: Shared, actions: seq<Action>, id: string)
    requires b.width >= 1 && Follows(b, Init(b, shared), actions)
    requires Final(b, Init(b, shared), actions).phase.Returned?
    ensures var t := Final(b, Init(b, shared), actions);
      || Unchanged(shared.rows, t.shared.rows, id)
      || exists r :: r in t.settled && r.job < |b.eligible| && b.eligible[r.job].id == id
           && Honest(b, t.cancelled, r) && Shows(t.shared.rows, id, r.effect)
  {
    var t := Final(b, Init(b, shared), actions);
    BatchReturns(b, shared, actions);
    assert Settled(b, shared.rows, t);
    forall i | 0 <= i < |t.settled|
      ensures t.settled[i].job < |b.eligible|
    {
      assert Honest(b, t.cancelled, t.settled[i]);
    }
    FoldIsOneEffect(b, shared.rows, t.settled, id);
    if !Unchanged(shared.rows, t.shared.rows, id) {
      var i :| 0 <= i < |t.settled| && b.eligible[t.settled[i].job].id == id
        && Shows(t.shared.rows, id, t.settled[i].effect);
      assert t.settled[i] in t.settled;
    }
  }
}
