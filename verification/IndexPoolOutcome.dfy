/** What a batch leaves behind when it returns, whatever the schedule was. */
module IndexPoolOutcome {
  import opened Catalog
  import opened IndexPool
  import opened IndexPoolProgress
  import opened IndexPoolSafety

  /** After the return nothing is left in the channel and the error is the collector's. */
  ghost predicate Closing(s: State) {
    s.phase.Returned? ==>
      && s.closed && s.queue == []
      && s.phase.fault == (if s.fault.Some? then s.fault else if s.callerDone then Some(Cancelled(Caller)) else None)
  }

  ghost predicate Inv(b: Batch, rows: Rows, s: State) {
    && Shape(b, s)
    && JobsAccounted(s) && ResultsAccounted(s) && Booked(b, rows, s)
    && Provenance(b, s) && Diligent(b, s) && Closing(s)
  }

  lemma {:induction false} NoHandsAtFirst(n: nat, j: nat, r: Result)
    ensures Hands(seq(n, _ => Top), j) == 0 && Sends(seq(n, _ => Top), r) == 0
  {
    NothingInHand(seq(n, _ => Top), j, r);
  }

  lemma InvInit(b: Batch, shared: Shared)
    ensures Inv(b, shared.rows, Init(b, shared))
  {
    var s := Init(b, shared);
    var r0 := Result(0, Unset, None, Keep);
    forall j: nat
      ensures Hands(s.workers, j) == 0
    {
      NoHandsAtFirst(b.width, j, r0);
    }
    forall r: Result
      ensures Sends(s.workers, r) == 0
    {
      NoHandsAtFirst(b.width, 0, r);
    }
  }

  lemma ClosingKept(b: Batch, s: State, a: Action)
    requires Enabled(b, s, a)
    ensures Closing(Apply(b, s, a))
  {
  }

  lemma InvStep(b: Batch, rows: Rows, s: State, a: Action)
    requires Inv(b, rows, s) && Enabled(b, s, a)
    ensures Inv(b, rows, Apply(b, s, a))
  {
    ShapeKept(b, s, a);
    JobsAccountedKept(b, s, a);
    ResultsAccountedKept(b, s, a);
    BookedKept(b, rows, s, a);
    ProvenanceKept(b, s, a);
    DiligentKept(b, s, a);
    ClosingKept(b, s, a);
  }

  lemma {:induction false} InvAlways(b: Batch, rows: Rows, s: State, actions: seq<Action>)
    requires Inv(b, rows, s) && Follows(b, s, actions)
    ensures Inv(b, rows, Final(b, s, actions))
    decreases |actions|
  {
    if actions != [] {
      InvStep(b, rows, s, actions[0]);
      InvAlways(b, rows, Apply(b, s, actions[0]), actions[1..]);
    }
  }

  // --- Counting -----------------------------------------------------------------------------

  function Without(rs: seq<Result>, i: nat): seq<Result>
    requires i < |rs|
  {
    rs[..i] + rs[i + 1..]
  }

  lemma CountCommutes(t: Tally, x: Status, y: Status)
    ensures Count(Count(t, x), y) == Count(Count(t, y), x)
  {
  }

  lemma {:induction false} RemoveOne(rs: seq<Result>, i: nat, j: nat)
    requires i < |rs|
    ensures TallyOf(rs) == Count(TallyOf(Without(rs, i)), rs[i].status)
    ensures About(rs, j) == About(Without(rs, i), j) + (if rs[i].job == j then 1 else 0)
    ensures forall r | r in Without(rs, i) :: r in rs
    decreases |rs|
  {
    var n := |rs| - 1;
    var front, rest := rs[..n], Without(rs, i);
    if i < n {
      RemoveOne(front, i, j);
      var less := Without(front, i);
      assert rest == less + [rs[n]];
      TallyOneMore(less, rest, rs[n]);
      AboutOneMore(less, rest, rs[n], j);
      CountCommutes(TallyOf(less), rs[i].status, rs[n].status);
    } else {
      assert rest == front;
    }
  }

  lemma {:induction false} AboutWitness(rs: seq<Result>, j: nat) returns (i: nat)
    requires About(rs, j) >= 1
    ensures i < |rs| && rs[i].job == j
  {
    var n := |rs| - 1;
    if rs[n].job == j {
      i := n;
    } else {
      i := AboutWitness(rs[..n], j);
    }
  }

  lemma {:induction false} AboutPositive(rs: seq<Result>, i: nat)
    requires i < |rs|
    ensures About(rs, rs[i].job) >= 1
    decreases |rs|
  {
    if i < |rs| - 1 {
      AboutPositive(rs[..|rs| - 1], i);
    }
  }

  lemma {:induction false} TallyTotal(rs: seq<Result>)
    ensures var t := TallyOf(rs); t.stored + t.weak + t.failed <= |rs|
    ensures (forall r | r in rs :: !r.status.Unset?) ==> var t := TallyOf(rs); t.stored + t.weak + t.failed == |rs|
  {
    if rs != [] {
      var front := rs[..|rs| - 1];
      TallyTotal(front);
      assert forall r | r in front :: r in rs;
      assert rs[|rs| - 1] in rs;
    }
  }

  lemma FirstJob(rs: seq<Result>)
    requires rs != []
    ensures rs[0].job >= 0
  {
  }

  /** Results about distinct jobs below `n` are at most `n` many, and exactly `n` if none is missing. */
  lemma {:induction false} DistinctJobs(rs: seq<Result>, n: nat)
    requires forall i | 0 <= i < |rs| :: rs[i].job < n
    requires forall j: nat :: About(rs, j) <= 1
    ensures |rs| <= n
    ensures (forall j: nat | j < n :: About(rs, j) == 1) ==> |rs| == n
    decreases n
  {
    if n == 0 {
      if rs != [] {
        FirstJob(rs);
      }
    } else if About(rs, n - 1) == 1 {
      var i := AboutWitness(rs, n - 1);
      var rest := Without(rs, i);
      forall j: nat
        ensures About(rest, j) == About(rs, j) - (if j == n - 1 then 1 else 0)
      {
        RemoveOne(rs, i, j);
      }
      forall k | 0 <= k < |rest|
        ensures rest[k].job < n - 1
      {
        assert rest[k] in rest;
        AboutPositive(rest, k);
      }
      DistinctJobs(rest, n - 1);
    } else {
      forall k | 0 <= k < |rs|
        ensures rs[k].job < n - 1
      {
        AboutPositive(rs, k);
      }
      DistinctJobs(rs, n - 1);
    }
  }

  lemma WithoutOne(q: seq<Result>, i: nat)
    requires i < |q|
    ensures multiset(Without(q, i)) == multiset(q) - multiset{q[i]}
  {
    assert q == q[..i] + [q[i]] + q[i + 1..];
  }

  /** The counters do not depend on the order of the results. */
  lemma {:induction false} TallyUnordered(p: seq<Result>, q: seq<Result>)
    requires multiset(p) == multiset(q)
    ensures TallyOf(p) == TallyOf(q)
    decreases |p|
  {
    if p == [] {
      assert |multiset(q)| == 0;
      assert q == [];
    } else {
      var n := |p| - 1;
      assert p[n] in multiset(q);
      var i :| 0 <= i < |q| && q[i] == p[n];
      assert Without(p, n) == p[..n];
      WithoutOne(p, n);
      WithoutOne(q, i);
      TallyUnordered(p[..n], Without(q, i));
      RemoveOne(q, i, 0);
    }
  }

  // --- The return ---------------------------------------------------------------------------

  /** What a caller of the batch can rely on, for every schedule that reaches the return. */
  ghost predicate Settled(b: Batch, rows: Rows, t: State)
    requires t.phase.Returned?
  {
    && t.closed
    && t.shared.rows == Fold(b, rows, t.settled)
    && (forall r | r in t.settled :: Honest(b, t.cancelled, r))
    && (forall j: nat :: About(t.settled, j) <= 1)
    && t.tally == TallyOf(t.settled)
    && t.tally.stored + t.tally.weak + t.tally.failed <= |t.settled| <= |b.eligible|
    && (t.phase.fault.None? ==>
          && t.tally.stored + t.tally.weak + t.tally.failed == |b.eligible|
          && (forall j: nat | j < |b.eligible| :: About(t.settled, j) == 1)
          && forall r | r in t.settled :: r.fault.None?)
  }

  lemma HandsEmptyAtReturn(b: Batch, rows: Rows, t: State)
    requires Inv(b, rows, t) && t.phase.Returned?
    ensures forall j: nat :: Hands(t.workers, j) == 0
    ensures multiset(t.settled) == multiset(t.seen)
  {
    forall j: nat
      ensures Hands(t.workers, j) == 0
    {
      NothingInHand(t.workers, j, Result(0, Unset, None, Keep));
    }
    forall r: Result
      ensures multiset(t.settled)[r] == multiset(t.seen)[r]
    {
      NothingInHand(t.workers, 0, r);
      assert multiset(t.settled)[r] == multiset(t.seen)[r] + multiset(t.queue)[r] + Sends(t.workers, r);
    }
  }

  lemma EffectsAreWhole(b: Batch, rows: Rows, t: State)
    requires Inv(b, rows, t) && t.phase.Returned?
    ensures forall j: nat :: About(t.settled, j) <= 1
    ensures t.tally == TallyOf(t.settled)
    ensures |t.settled| <= |b.eligible|
    ensures t.tally.stored + t.tally.weak + t.tally.failed <= |t.settled|
  {
    HandsEmptyAtReturn(b, rows, t);
    TallyUnordered(t.settled, t.seen);
    forall j: nat
      ensures About(t.settled, j) <= 1
    {
      assert JobAccounted(t, j);
    }
    forall i | 0 <= i < |t.settled|
      ensures t.settled[i].job < |b.eligible|
    {
      assert Honest(b, t.cancelled, t.settled[i]);
    }
    DistinctJobs(t.settled, |b.eligible|);
    TallyTotal(t.settled);
  }

  lemma NothingMissing(b: Batch, rows: Rows, t: State)
    requires Inv(b, rows, t) && t.phase == Returned(None) && b.width >= 1
    ensures forall j: nat | j < |b.eligible| :: About(t.settled, j) == 1
    ensures forall r | r in t.settled :: r.fault.None?
    ensures t.tally.stored + t.tally.weak + t.tally.failed == |b.eligible|
  {
    EffectsAreWhole(b, rows, t);
    HandsEmptyAtReturn(b, rows, t);
    assert t.fault.None? && !t.callerDone;
    assert t.cancelled.None?;
    assert t.workers[0].Exited?;
    forall j: nat | j < |b.eligible|
      ensures About(t.settled, j) == 1
    {
      assert JobAccounted(t, j);
    }
    forall r | r in t.settled
      ensures r.fault.None?
    {
      assert r in multiset(t.seen);
      assert Honest(b, t.cancelled, r);
    }
    forall i | 0 <= i < |t.settled|
      ensures t.settled[i].job < |b.eligible|
    {
      assert Honest(b, t.cancelled, t.settled[i]);
    }
    DistinctJobs(t.settled, |b.eligible|);
    TallyTotal(t.settled);
  }

  /** Conservation: a return without error accounts for every eligible candidate exactly once; any
      other return leaves the initial table plus the whole effect of some of them. */
  lemma BatchReturns(b: Batch, shared: Shared, actions: seq<Action>)
    requires b.width >= 1 && Follows(b, Init(b, shared), actions)
    requires Final(b, Init(b, shared), actions).phase.Returned?
    ensures Settled(b, shared.rows, Final(b, Init(b, shared), actions))
  {
    var s := Init(b, shared);
    var t := Final(b, s, actions);
    InvInit(b, shared);
    InvAlways(b, shared.rows, s, actions);
    EffectsAreWhole(b, shared.rows, t);
    if t.phase.fault.None? {
      NothingMissing(b, shared.rows, t);
    }
  }

  /** The error a batch returns is never a cancellation the batch caused itself: it is the caller's
      cancellation, or the error of some candidate that was received before the collector cancelled. */
  lemma RootCause(b: Batch, shared: Shared, actions: seq<Action>)
    requires Follows(b, Init(b, shared), actions)
    requires Final(b, Init(b, shared), actions).phase.Returned?
    ensures var t := Final(b, Init(b, shared), actions);
      && t.phase.fault != Some(Cancelled(Collector))
      && (t.phase.fault == Some(Cancelled(Caller)) ==> t.callerDone)
      && (t.phase.fault.Some? && !t.callerDone ==>
            exists r :: r in t.settled && r.fault == t.phase.fault && !t.phase.fault.value.Cancelled?)
  {
    var s := Init(b, shared);
    var t := Final(b, s, actions);
    InvInit(b, shared);
    InvAlways(b, shared.rows, s, actions);
    if t.fault.Some? {
      var r :| r in t.seen && r.fault == t.fault;
      HandsEmptyAtReturn(b, shared.rows, t);
      assert r in multiset(t.settled);
      assert Honest(b, t.cancelled, r);
      if t.fault.value.Cancelled? {
        assert t.fault.value.cause != Collector;
        assert t.cancelled == Some(Caller);
      }
    }
  }
}
