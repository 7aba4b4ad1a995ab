/** What every step of the worker pool keeps: conservation of jobs and results, the provenance of
    errors, the pacing of audits and the publication gate. */
module IndexPoolSafety {
  import opened Catalog
  import opened IndexPool
  import opened IndexPoolProgress

  // --- Ledgers ------------------------------------------------------------------------------

  predicate Carries(pc: Worker, j: nat) {
    HasJob(pc) && pc.job == j
  }

  /** How many workers have job `j` in hand without having settled it. */
  function Hands(ws: seq<Worker>, j: nat): nat {
    if ws == [] then 0 else (if Carries(ws[0], j) then 1 else 0) + Hands(ws[1..], j)
  }

  /** How many of the results are about job `j`. */
  function About(rs: seq<Result>, j: nat): nat {
    if rs == [] then 0 else About(rs[..|rs| - 1], j) + (if rs[|rs| - 1].job == j then 1 else 0)
  }

  /** How many workers are sending result `r`. */
  function Sends(ws: seq<Worker>, r: Result): nat {
    if ws == [] then 0 else (if ws[0] == Sending(r) then 1 else 0) + Sends(ws[1..], r)
  }

  function TallyOf(rs: seq<Result>): Tally {
    if rs == [] then Tally(0, 0, 0) else Count(TallyOf(rs[..|rs| - 1]), rs[|rs| - 1].status)
  }

  /** The table after a list of settled results, each applied whole. */
  function Fold(b: Batch, rows: Rows, rs: seq<Result>): Rows {
    if rs == [] then rows
    else
      var before, r := Fold(b, rows, rs[..|rs| - 1]), rs[|rs| - 1];
      if r.job < |b.eligible| then ApplyEffect(before, b.eligible[r.job].id, r.effect) else before
  }

  lemma {:induction false} HandsUpdate(ws: seq<Worker>, w: nat, pc: Worker, j: nat)
    requires w < |ws|
    ensures Hands(ws[w := pc], j) + (if Carries(ws[w], j) then 1 else 0)
         == Hands(ws, j) + (if Carries(pc, j) then 1 else 0)
  {
    if w > 0 {
      HandsUpdate(ws[1..], w - 1, pc, j);
      assert ws[w := pc][1..] == ws[1..][w - 1 := pc];
    } else {
      assert ws[w := pc][1..] == ws[1..];
    }
  }

  lemma {:induction false} SendsUpdate(ws: seq<Worker>, w: nat, pc: Worker, r: Result)
    requires w < |ws|
    ensures Sends(ws[w := pc], r) + (if ws[w] == Sending(r) then 1 else 0)
         == Sends(ws, r) + (if pc == Sending(r) then 1 else 0)
  {
    if w > 0 {
      SendsUpdate(ws[1..], w - 1, pc, r);
      assert ws[w := pc][1..] == ws[1..][w - 1 := pc];
    } else {
      assert ws[w := pc][1..] == ws[1..];
    }
  }

  lemma {:induction false} NothingInHand(ws: seq<Worker>, j: nat, r: Result)
    requires forall w | 0 <= w < |ws| :: ws[w].Top? || ws[w].Exited?
    ensures Hands(ws, j) == 0 && Sends(ws, r) == 0
  {
    if ws != [] {
      NothingInHand(ws[1..], j, r);
    }
  }

  /** Every job taken so far is, exactly once, settled, in the hands of a worker, or dropped. */
  predicate JobAccounted(s: State, j: nat) {
    About(s.settled, j) + Hands(s.workers, j) + multiset(s.dropped)[j] == (if j < s.next then 1 else 0)
  }

  ghost predicate JobsAccounted(s: State) {
    forall j: nat :: JobAccounted(s, j)
  }

  /** Every settled result is, exactly once, received, queued, or being sent. */
  ghost predicate ResultsAccounted(s: State) {
    forall r: Result ::
      multiset(s.settled)[r] == multiset(s.seen)[r] + multiset(s.queue)[r] + Sends(s.workers, r)
  }

  ghost predicate Booked(b: Batch, rows: Rows, s: State) {
    s.tally == TallyOf(s.seen) && s.shared.rows == Fold(b, rows, s.settled)
  }

  lemma WorkFrame(b: Batch, s: State, a: Action)
    requires Enabled(b, s, a)
    ensures var t := Apply(b, s, a);
      && (!a.Settle? ==> t.settled == s.settled)
      && (!a.CheckContext? ==> t.dropped == s.dropped)
      && (!a.Take? ==> t.next == s.next)
  {
  }

  lemma ChannelFrame(b: Batch, s: State, a: Action)
    requires Enabled(b, s, a)
    ensures var t := Apply(b, s, a);
      && (!a.Send? && !a.Receive? ==> t.queue == s.queue)
      && (!a.Receive? ==> t.seen == s.seen && t.fault == s.fault && t.tally == s.tally)
  {
  }

  lemma CancelFrame(b: Batch, s: State, a: Action)
    requires Enabled(b, s, a)
    ensures var t := Apply(b, s, a);
      && (!a.CallerCancels? ==> t.callerDone == s.callerDone)
      && (!a.CallerCancels? && !a.Receive? ==> t.cancelled == s.cancelled)
      && (s.cancelled.Some? ==> t.cancelled == s.cancelled)
  {
  }

  /** Which steps write which part of the state. */
  lemma Frames(b: Batch, s: State, a: Action)
    requires Enabled(b, s, a)
    ensures var t := Apply(b, s, a);
      && (!a.Settle? ==> t.settled == s.settled)
      && (!a.CheckContext? ==> t.dropped == s.dropped)
      && (!a.Take? ==> t.next == s.next)
      && (!a.Send? && !a.Receive? ==> t.queue == s.queue)
      && (!a.Receive? ==> t.seen == s.seen && t.fault == s.fault && t.tally == s.tally)
      && (!a.CallerCancels? ==> t.callerDone == s.callerDone)
      && (!a.CallerCancels? && !a.Receive? ==> t.cancelled == s.cancelled)
      && (s.cancelled.Some? ==> t.cancelled == s.cancelled)
  {
    WorkFrame(b, s, a);
    ChannelFrame(b, s, a);
    CancelFrame(b, s, a);
  }

  /** Only taking, dropping and settling change whether a worker carries a job. */
  lemma KeepsJob(b: Batch, s: State, a: Action)
    requires Enabled(b, s, a) && Moves(a) && !a.Take? && !a.CheckContext? && !a.Settle?
    ensures var t := Apply(b, s, a);
      && a.w < |s.workers| && a.w < |t.workers|
      && HasJob(t.workers[a.w]) == HasJob(s.workers[a.w])
      && (HasJob(s.workers[a.w]) ==> t.workers[a.w].job == s.workers[a.w].job)
  {
  }

  lemma TakesOne(b: Batch, s: State, w: nat, j: nat)
    requires Enabled(b, s, Take(w))
    ensures var t := Apply(b, s, Take(w));
      && w < |s.workers| && w < |t.workers| && !Carries(s.workers[w], j)
      && (if Carries(t.workers[w], j) then 1 else 0) + (if j < s.next then 1 else 0) == (if j < t.next then 1 else 0)
  {
  }

  lemma ChecksOne(b: Batch, s: State, w: nat, j: nat)
    requires Enabled(b, s, CheckContext(w))
    ensures var t := Apply(b, s, CheckContext(w));
      && w < |s.workers| && w < |t.workers|
      && (if Carries(t.workers[w], j) then 1 else 0) + multiset(t.dropped)[j]
      == (if Carries(s.workers[w], j) then 1 else 0) + multiset(s.dropped)[j]
  {
  }

  lemma SettlesOne(b: Batch, s: State, w: nat, now: int, outcome: StoreOutcome, j: nat)
    requires Enabled(b, s, Settle(w, now, outcome))
    ensures var t := Apply(b, s, Settle(w, now, outcome));
      && w < |s.workers| && w < |t.workers| && !Carries(t.workers[w], j) && t.workers[w].Sending?
      && t.settled == s.settled + [t.workers[w].result] && (Carries(s.workers[w], j) <==> t.workers[w].result.job == j)
  {
  }

  lemma AboutOneMore(rs: seq<Result>, rs': seq<Result>, r: Result, j: nat)
    requires rs' == rs + [r]
    ensures About(rs', j) == About(rs, j) + (if r.job == j then 1 else 0)
  {
    assert rs'[..|rs|] == rs;
  }

  /** One step of a worker hands job `j` over without losing or doubling it. */
  lemma JobHandedOver(b: Batch, s: State, a: Action, j: nat)
    requires Enabled(b, s, a) && Moves(a)
    ensures var t := Apply(b, s, a);
      && a.w < |s.workers| && a.w < |t.workers|
      && About(t.settled, j) + (if Carries(t.workers[a.w], j) then 1 else 0) + multiset(t.dropped)[j]
         + (if j < s.next then 1 else 0)
      == About(s.settled, j) + (if Carries(s.workers[a.w], j) then 1 else 0) + multiset(s.dropped)[j]
         + (if j < t.next then 1 else 0)
  {
    Frames(b, s, a);
    match a {
      case Take(w) => TakesOne(b, s, w, j);
      case CheckContext(w) => ChecksOne(b, s, w, j);
      case Settle(w, now, outcome) =>
        SettlesOne(b, s, w, now, outcome, j);
        AboutOneMore(s.settled, Apply(b, s, a).settled, Apply(b, s, a).workers[w].result, j);
      case _ => KeepsJob(b, s, a);
    }
  }

  lemma HandedOverOnce(s: State, t: State, w: nat, j: nat)
    requires JobAccounted(s, j) && w < |s.workers| && w < |t.workers| && t.workers == s.workers[w := t.workers[w]]
    requires About(t.settled, j) + (if Carries(t.workers[w], j) then 1 else 0) + multiset(t.dropped)[j]
         + (if j < s.next then 1 else 0)
      == About(s.settled, j) + (if Carries(s.workers[w], j) then 1 else 0) + multiset(s.dropped)[j]
         + (if j < t.next then 1 else 0)
    ensures JobAccounted(t, j)
  {
    HandsUpdate(s.workers, w, t.workers[w], j);
  }

  lemma CollectorTakesNothing(b: Batch, s: State, a: Action)
    requires Enabled(b, s, a) && !Moves(a)
    ensures var t := Apply(b, s, a);
      t.workers == s.workers && t.settled == s.settled && t.dropped == s.dropped && t.next == s.next
  {
  }

  lemma JobAccountedKept(b: Batch, s: State, a: Action, j: nat)
    requires JobAccounted(s, j) && Enabled(b, s, a)
    ensures JobAccounted(Apply(b, s, a), j)
  {
    if Moves(a) {
      OneMoves(b, s, a);
      JobHandedOver(b, s, a, j);
      HandedOverOnce(s, Apply(b, s, a), a.w, j);
    } else {
      CollectorTakesNothing(b, s, a);
    }
  }

  lemma JobsAccountedKept(b: Batch, s: State, a: Action)
    requires JobsAccounted(s) && Enabled(b, s, a)
    ensures JobsAccounted(Apply(b, s, a))
  {
    forall j: nat
      ensures JobAccounted(Apply(b, s, a), j)
    {
      assert JobAccounted(s, j);
      JobAccountedKept(b, s, a, j);
    }
  }

  lemma SettlesResult(b: Batch, s: State, w: nat, now: int, outcome: StoreOutcome)
    requires Enabled(b, s, Settle(w, now, outcome))
    ensures var t := Apply(b, s, Settle(w, now, outcome));
      && w < |s.workers| && w < |t.workers| && t.workers[w].Sending? && !s.workers[w].Sending?
      && t.settled == s.settled + [t.workers[w].result]
  {
  }

  lemma SendsResult(b: Batch, s: State, w: nat)
    requires Enabled(b, s, Send(w))
    ensures var t := Apply(b, s, Send(w));
      && w < |s.workers| && w < |t.workers| && s.workers[w].Sending? && !t.workers[w].Sending?
      && t.queue == s.queue + [s.workers[w].result]
  {
  }

  lemma NoSender(b: Batch, s: State, a: Action)
    requires Enabled(b, s, a) && Moves(a) && !a.Settle? && !a.Send?
    ensures var t := Apply(b, s, a);
      a.w < |s.workers| && a.w < |t.workers| && !s.workers[a.w].Sending? && !t.workers[a.w].Sending?
  {
  }

  /** The same for results, on their way from a worker to the collector. */
  lemma ResultHandedOver(b: Batch, s: State, a: Action, r: Result)
    requires Enabled(b, s, a) && Moves(a)
    ensures var t := Apply(b, s, a);
      && a.w < |s.workers| && a.w < |t.workers|
      && multiset(t.queue)[r] + (if t.workers[a.w] == Sending(r) then 1 else 0) + multiset(s.settled)[r]
      == multiset(s.queue)[r] + (if s.workers[a.w] == Sending(r) then 1 else 0) + multiset(t.settled)[r]
  {
    Frames(b, s, a);
    match a {
      case Settle(w, now, outcome) => SettlesResult(b, s, w, now, outcome);
      case Send(w) => SendsResult(b, s, w);
      case _ => NoSender(b, s, a);
    }
  }

  lemma ReceivingMovesOne(q: seq<Result>, seen: seq<Result>, r: Result)
    requires q != []
    ensures multiset(seen + [q[0]])[r] + multiset(q[1..])[r] == multiset(seen)[r] + multiset(q)[r]
  {
    assert q == [q[0]] + q[1..];
  }

  lemma ResultMoved(b: Batch, s: State, a: Action, r: Result)
    requires Enabled(b, s, a) && Moves(a)
    requires multiset(s.settled)[r] == multiset(s.seen)[r] + multiset(s.queue)[r] + Sends(s.workers, r)
    ensures var t := Apply(b, s, a);
      multiset(t.settled)[r] == multiset(t.seen)[r] + multiset(t.queue)[r] + Sends(t.workers, r)
  {
    var t := Apply(b, s, a);
    assert t.seen == s.seen by { Frames(b, s, a); }
    OneMoves(b, s, a);
    ResultHandedOver(b, s, a, r);
    SendsUpdate(s.workers, a.w, t.workers[a.w], r);
  }

  lemma CollectorFrame(b: Batch, s: State, a: Action)
    requires Enabled(b, s, a) && !Moves(a)
    ensures var t := Apply(b, s, a);
      && t.workers == s.workers && t.settled == s.settled
      && (a.Receive? ==> s.queue != [] && t.seen == s.seen + [s.queue[0]] && t.queue == s.queue[1..])
      && (!a.Receive? ==> t.seen == s.seen && t.queue == s.queue)
  {
  }

  lemma ResultReceived(b: Batch, s: State, a: Action, r: Result)
    requires Enabled(b, s, a) && !Moves(a)
    requires multiset(s.settled)[r] == multiset(s.seen)[r] + multiset(s.queue)[r] + Sends(s.workers, r)
    ensures var t := Apply(b, s, a);
      multiset(t.settled)[r] == multiset(t.seen)[r] + multiset(t.queue)[r] + Sends(t.workers, r)
  {
    CollectorFrame(b, s, a);
    if a.Receive? {
      ReceivingMovesOne(s.queue, s.seen, r);
      assert multiset(s.seen + [s.queue[0]])[r] == multiset(Apply(b, s, a).seen)[r];
    }
  }

  lemma ResultsAccountedKept(b: Batch, s: State, a: Action)
    requires ResultsAccounted(s) && Enabled(b, s, a)
    ensures ResultsAccounted(Apply(b, s, a))
  {
    var t := Apply(b, s, a);
    forall r: Result
      ensures multiset(t.settled)[r] == multiset(t.seen)[r] + multiset(t.queue)[r] + Sends(t.workers, r)
    {
      if Moves(a) {
        ResultMoved(b, s, a, r);
      } else {
        ResultReceived(b, s, a, r);
      }
    }
  }

  lemma FoldOneMore(b: Batch, rows: Rows, rs: seq<Result>, rs': seq<Result>, r: Result)
    requires rs' == rs + [r] && r.job < |b.eligible|
    ensures Fold(b, rows, rs') == ApplyEffect(Fold(b, rows, rs), b.eligible[r.job].id, r.effect)
  {
    assert rs'[..|rs|] == rs;
  }

  lemma TallyOneMore(rs: seq<Result>, rs': seq<Result>, r: Result)
    requires rs' == rs + [r]
    ensures TallyOf(rs') == Count(TallyOf(rs), r.status)
  {
    assert rs'[..|rs|] == rs;
  }

  /** What is booked when: the table when a result is settled, the counters when it is received. */
  lemma Bookings(b: Batch, s: State, a: Action)
    requires Enabled(b, s, a)
    ensures var t := Apply(b, s, a);
      && (a.Settle? ==>
            && a.w < |t.workers| && t.workers[a.w].Sending? && t.workers[a.w].result.job < |b.eligible|
            && t.settled == s.settled + [t.workers[a.w].result]
            && t.shared.rows ==
               ApplyEffect(s.shared.rows, b.eligible[t.workers[a.w].result.job].id, t.workers[a.w].result.effect))
      && (!a.Settle? ==> t.shared.rows == s.shared.rows && t.settled == s.settled)
      && (a.Receive? ==>
            s.queue != [] && t.seen == s.seen + [s.queue[0]] && t.tally == Count(s.tally, s.queue[0].status))
      && (!a.Receive? ==> t.seen == s.seen && t.tally == s.tally)
  {
  }

  lemma BookedKept(b: Batch, rows: Rows, s: State, a: Action)
    requires Booked(b, rows, s) && Enabled(b, s, a)
    ensures Booked(b, rows, Apply(b, s, a))
  {
    var t := Apply(b, s, a);
    Bookings(b, s, a);
    if a.Settle? {
      FoldOneMore(b, rows, s.settled, t.settled, t.workers[a.w].result);
    } else if a.Receive? {
      TallyOneMore(s.seen, t.seen, s.queue[0]);
    }
  }

  // --- Provenance of errors -----------------------------------------------------------------

  /** A result blames a cancellation only if that cancellation is the one that happened, and its
      effect on the table is all or nothing. */
  ghost predicate Honest(b: Batch, cancelled: Option<Cause>, r: Result) {
    && r.job < |b.eligible|
    && (r.fault.Some? && r.fault.value.Cancelled? ==> cancelled == Some(r.fault.value.cause))
    && (r.fault.None? ==> !r.status.Unset?)
    && (r.status.Stored? ==> r.effect.Put?)
    && (r.status.Weak? ==> r.effect.Drop?)
    && (r.effect.Put? ==> r.status.Stored? || r.fault.Some?)
    && (r.effect.Drop? ==> r.status.Weak? || r.fault.Some?)
    && (r.effect.Put? ==> RowAccepted(r.effect.row) && Storable(r.effect.row.files))
    && (r.effect.Put? ==> exists a, checked, now ::
          Passing(a) && r.effect.row == RowFor(b.env, b.eligible[r.job], a, checked, now))
  }

  ghost predicate Provenance(b: Batch, s: State) {
    && (forall r | r in s.settled :: Honest(b, s.cancelled, r))
    && (s.callerDone ==> s.cancelled.Some?)
    && (s.cancelled.Some? && s.cancelled.value.Caller? ==> s.callerDone)
    && (s.cancelled.Some? && s.cancelled.value.Collector? ==> s.fault.Some?)
    && (forall r | r in s.seen && r.fault.Some? :: s.fault.Some?)
    && (s.fault.Some? ==> exists r :: r in s.seen && r.fault == s.fault)
    && s.fault != Some(Cancelled(Collector))
  }

  /** Workers give up only after a cancellation. */
  ghost predicate Diligent(b: Batch, s: State) {
    && (s.dropped != [] ==> s.cancelled.Some?)
    && (forall w | 0 <= w < |s.workers| && (s.workers[w].Audited? || s.workers[w].Replied?)
          && s.workers[w].reply.GateCancelled? :: s.cancelled.Some?)
    && (forall w | 0 <= w < |s.workers| && s.workers[w].Exited? :: s.next == |b.eligible| || s.cancelled.Some?)
  }

  /** What becomes of one candidate, for every answer of the auditor and every outcome of the store's
      statement: which row it gets or loses, how it is counted, and the error. */
  lemma SettledFate(b: Batch, j: nat, reply: Reply, cancelled: Option<Cause>, outcome: StoreOutcome, now: int)
    requires j < |b.eligible|
    ensures var r, c := SettleResult(b, j, reply, cancelled, outcome, now), b.eligible[j];
      var passes := reply.Answer? && reply.a.status == "pass" && reply.a.score >= 5 && reply.a.quality >= 5;
      var storable := forall f | f in c.files :: f.utf8 && '\0' !in f.contents;
      var took := outcome.Applied? || outcome.Unreported?;
      var unheard := reply.AuditError? || reply.GateCancelled?;
      && r.job == j
      && (r.effect.Drop? <==> reply.Answer? && !passes && took)
      && (r.effect.Put? <==>
            && (passes || reply.Unaudited?) && storable && took && c.stars >= 11
            && (passes ==> reply.a.score <= 10 && reply.a.quality <= 10))
      && (r.effect.Put? ==>
            && Describes(r.effect.row, b.env, c, if passes then reply.a else Assessment(5, 5, "pass", "", "", []),
                         passes)
            && r.effect.row.auditedAt == now && r.effect.row.updatedAt == now)
      && (r.status.Stored? <==> r.effect.Put? && outcome.Applied?)
      && (r.status.Weak? <==> r.effect.Drop? && outcome.Applied?)
      && (r.status.Failed? <==> ((passes || reply.Unaudited?) && !storable) || (unheard && cancelled.None?))
      && (r.fault.None? <==> r.status.Stored? || r.status.Weak? || (r.status.Failed? && !unheard))
      && (r.fault.Some? ==>
            r.fault.value == if cancelled.Some? && (unheard || !outcome.Refused?) then Cancelled(cancelled.value)
                             else if unheard then Deferred(j) else StoreError(j))
  {
  }

  lemma SettleHonest(b: Batch, j: nat, reply: Reply, cancelled: Option<Cause>, outcome: StoreOutcome, now: int)
    requires j < |b.eligible|
    ensures Honest(b, cancelled, SettleResult(b, j, reply, cancelled, outcome, now))
  {
    var r := SettleResult(b, j, reply, cancelled, outcome, now);
    if r.effect.Put? {
      if reply.Answer? {
        assert Passing(reply.a) && r.effect.row == RowFor(b.env, b.eligible[j], reply.a, true, now);
      } else {
        assert Passing(UNCHECKED) && r.effect.row == RowFor(b.env, b.eligible[j], UNCHECKED, false, now);
      }
    }
  }

  lemma ReceivedIsSettled(s: State)
    requires ResultsAccounted(s)
    ensures forall r | r in s.queue || r in s.seen :: r in s.settled
  {
    forall r | r in s.queue || r in s.seen
      ensures r in s.settled
    {
      assert r in multiset(s.settled);
    }
  }

  lemma DiligentKept(b: Batch, s: State, a: Action)
    requires Shape(b, s) && Diligent(b, s) && Enabled(b, s, a)
    ensures Diligent(b, Apply(b, s, a))
  {
    Frames(b, s, a);
    if Moves(a) {
      OneMoves(b, s, a);
    }
  }

  lemma SettlingIsHonest(b: Batch, s: State, a: Action)
    requires Enabled(b, s, a) && (forall r | r in s.settled :: Honest(b, s.cancelled, r))
    ensures var t := Apply(b, s, a); forall r | r in t.settled :: Honest(b, t.cancelled, r)
  {
    Frames(b, s, a);
    if a.Settle? {
      SettleHonest(b, s.workers[a.w].job, s.workers[a.w].reply, s.cancelled, a.outcome, a.now);
    }
  }

  lemma ProvenanceKept(b: Batch, s: State, a: Action)
    requires ResultsAccounted(s) && Provenance(b, s) && Enabled(b, s, a)
    ensures Provenance(b, Apply(b, s, a))
  {
    SettlingIsHonest(b, s, a);
    Frames(b, s, a);
    if a.Receive? {
      ReceivedIsSettled(s);
      var t := Apply(b, s, a);
      assert s.queue[0] in t.seen;
      assert forall x | x in s.seen :: x in t.seen;
    }
  }

  // --- Errors and cancellations stop the pool ---------------------------------------------------

  /** A recorded error has cancelled the workers' context. */
  predicate Halted(s: State) {
    s.fault.Some? ==> s.cancelled.Some?
  }

  lemma HaltedKept(b: Batch, s: State, a: Action)
    requires Halted(s) && Enabled(b, s, a)
    ensures Halted(Apply(b, s, a))
  {
  }

  lemma DropsWhenCancelled(b: Batch, s: State, w: nat)
    requires Enabled(b, s, CheckContext(w)) && s.cancelled.Some?
    ensures var t := Apply(b, s, CheckContext(w));
      t.workers == s.workers[w := Exited] && t.dropped == s.dropped + [s.workers[w].job] && t.shared == s.shared
  {
  }

  /** Once the caller has cancelled or an error was recorded, a worker that takes up another candidate drops it
      and ends: nothing more is audited or stored for it. */
  lemma {:induction false} ErrorHalts(b: Batch, s: State, actions: seq<Action>, k: nat)
    requires Halted(s) && Follows(b, s, actions) && k < |actions|
    ensures Follows(b, s, actions[..k]) && Enabled(b, Final(b, s, actions[..k]), actions[k])
    ensures var t := Final(b, s, actions[..k]);
      (t.fault.Some? || t.cancelled.Some?) && actions[k].CheckContext? ==>
        var w, u := actions[k].w, Apply(b, t, actions[k]);
        w < |t.workers| && u.workers == t.workers[w := Exited] && u.shared == t.shared
    decreases |actions|
  {
    if k == 0 {
      assert actions[..0] == [];
      if s.cancelled.Some? && actions[0].CheckContext? {
        DropsWhenCancelled(b, s, actions[0].w);
      }
    } else {
      HaltedKept(b, s, actions[0]);
      ErrorHalts(b, Apply(b, s, actions[0]), actions[1..], k - 1);
      assert actions[..k][1..] == actions[1..][..k - 1];
    }
  }
}
