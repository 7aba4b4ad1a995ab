/** The audit gate inside the pool: one audit at a time, paced, and nothing is published as checked
    without a passing audit of its canonical file. */
module IndexPoolGate {
  import opened Catalog
  import opened IndexPool
  import opened IndexPoolProgress
  import opened IndexPoolSafety

  predicate InState(s: State, auditing: bool) {
    s.holder.Some? && s.holder.value < |s.workers|
    && (if auditing then s.workers[s.holder.value].Auditing? else s.workers[s.holder.value].Audited?)
  }

  ghost predicate PaceKept(interval: nat, s: State) {
    var sh := s.shared;
    && Paced(interval, sh.starts, sh.ends)
    && (|sh.starts| == |sh.ends| + 1 <==> InState(s, true))
    && (sh.starts != [] ==> sh.starts[|sh.starts| - 1] <= sh.clock)
    && (sh.ends != [] ==> sh.ends[|sh.ends| - 1] <= sh.clock)
    && (sh.ends != [] && !InState(s, false) ==> sh.ends[|sh.ends| - 1] + interval <= sh.nextStart)
  }

  lemma PaceInit(b: Batch, shared: Shared)
    requires GateIdle(b.env.interval, shared)
    ensures PaceKept(b.env.interval, Init(b, shared))
  {
    if shared.starts != [] {
      var k := |shared.starts| - 1;
      assert AuditAt(b.env.interval, shared.starts, shared.ends, k);
    }
  }

  lemma BeginKeepsPace(b: Batch, s: State, w: nat, now: int)
    requires Shape(b, s) && PaceKept(b.env.interval, s)
    requires w < |s.workers| && (s.workers[w].Locked? || s.workers[w].Waiting?)
    requires now >= s.shared.clock && now >= s.shared.nextStart
    ensures PaceKept(b.env.interval, BeginAudit(s, w, now))
  {
    assert HoldsGate(s.workers[w]);
    assert !InState(s, true) && !InState(s, false);
    PacedBegins(b.env.interval, s.shared.starts, s.shared.ends, now);
  }

  lemma EndKeepsPace(b: Batch, s: State, w: nat, now: int, answer: Option<Assessment>)
    requires Shape(b, s) && PaceKept(b.env.interval, s) && At(b, s, w) && s.workers[w].Auditing?
    requires now >= s.shared.clock
    ensures PaceKept(b.env.interval, EndAudit(b, s, w, now, answer))
  {
    assert HoldsGate(s.workers[w]);
    assert InState(s, true);
    PacedEnds(b.env.interval, s.shared.starts, s.shared.ends, now);
  }

  lemma GateFrame(b: Batch, s: State, a: Action)
    requires Enabled(b, s, a)
    requires !a.EnterGate? && !a.TimerFires? && !a.AuditReturns? && !a.Unlock?
    ensures var t := Apply(b, s, a);
      && t.shared.starts == s.shared.starts && t.shared.ends == s.shared.ends && t.shared.passed == s.shared.passed
      && t.shared.nextStart == s.shared.nextStart && t.shared.clock >= s.shared.clock
  {
  }

  /** Outside the gate's own steps nobody enters or leaves an audit. */
  lemma NobodyAudits(b: Batch, s: State, a: Action)
    requires Enabled(b, s, a) && Moves(a)
    requires !a.EnterGate? && !a.TimerFires? && !a.AuditReturns? && !a.Unlock?
    ensures var pc, pc' := s.workers[a.w], Apply(b, s, a).workers[a.w];
      !pc.Auditing? && !pc.Audited? && !pc'.Auditing? && !pc'.Audited?
  {
  }

  lemma GateUntouched(b: Batch, s: State, a: Action)
    requires Enabled(b, s, a) && !Moves(a)
    ensures Apply(b, s, a).workers == s.workers && Apply(b, s, a).holder == s.holder
  {
  }

  lemma InStateKept(b: Batch, s: State, a: Action, auditing: bool)
    requires Shape(b, s) && Enabled(b, s, a)
    requires !a.EnterGate? && !a.TimerFires? && !a.AuditReturns? && !a.Unlock?
    ensures InState(Apply(b, s, a), auditing) == InState(s, auditing)
  {
    if Moves(a) {
      OneMoves(b, s, a);
      OneLocks(b, s, a);
      NobodyAudits(b, s, a);
    } else {
      GateUntouched(b, s, a);
    }
  }

  lemma PaceKeptOutside(b: Batch, s: State, a: Action)
    requires Shape(b, s) && PaceKept(b.env.interval, s) && Enabled(b, s, a)
    requires !a.EnterGate? && !a.TimerFires? && !a.AuditReturns? && !a.Unlock?
    ensures PaceKept(b.env.interval, Apply(b, s, a))
  {
    GateFrame(b, s, a);
    InStateKept(b, s, a, true);
    InStateKept(b, s, a, false);
  }

  lemma PaceStep(b: Batch, s: State, a: Action)
    requires Shape(b, s) && PaceKept(b.env.interval, s) && Enabled(b, s, a)
    ensures PaceKept(b.env.interval, Apply(b, s, a))
  {
    match a
    case EnterGate(w, now) =>
      if now >= s.shared.nextStart {
        BeginKeepsPace(b, s, w, now);
      } else {
        assert HoldsGate(s.workers[w]);
        assert !InState(s, true) && !InState(s, false);
      }
    case TimerFires(w, now) => BeginKeepsPace(b, s, w, now);
    case AuditReturns(w, now, answer) => EndKeepsPace(b, s, w, now, answer);
    case Unlock(w, now) =>
      assert HoldsGate(s.workers[w]);
      assert InState(s, false) && !InState(s, true);
    case _ => PaceKeptOutside(b, s, a);
  }

  // --- Publication --------------------------------------------------------------------------

  ghost predicate Canonical(b: Batch) {
    forall c | c in b.eligible :: CanonicalPresent(c.contents, c.files)
  }

  predicate Vouched(b: Batch, s: State, pc: Worker) {
    ((pc.Audited? || pc.Replied?) && pc.reply.Answer? && Passing(pc.reply.a) && pc.job < |b.eligible|)
    ==> b.eligible[pc.job].contents in s.shared.passed
  }

  ghost predicate Publication(b: Batch, s: State) {
    && GateHolds(s.shared.rows, s.shared.passed)
    && forall w | 0 <= w < |s.workers| :: Vouched(b, s, s.workers[w])
  }

  lemma PublishedMonotone(rows: Rows, passed: set<string>, more: set<string>)
    requires GateHolds(rows, passed) && passed <= more
    ensures GateHolds(rows, more)
  {
    forall id | id in rows
      ensures Published(rows[id], more)
    {
      assert Published(rows[id], passed);
    }
  }

  lemma SettlePublishes(b: Batch, s: State, w: nat, now: int, outcome: StoreOutcome)
    requires Canonical(b) && Publication(b, s) && At(b, s, w) && s.workers[w].Replied?
    ensures GateHolds(SettleJob(b, s, w, now, outcome).shared.rows, s.shared.passed)
  {
    var j := s.workers[w].job;
    var c := b.eligible[j];
    var r := SettleResult(b, j, s.workers[w].reply, s.cancelled, outcome, now);
    assert Vouched(b, s, s.workers[w]);
    assert CanonicalPresent(c.contents, c.files);
    if r.effect.Put? {
      assert Published(r.effect.row, s.shared.passed);
    }
  }

  lemma PassedGrows(b: Batch, s: State, a: Action)
    requires Enabled(b, s, a)
    ensures s.shared.passed <= Apply(b, s, a).shared.passed
    ensures !a.Settle? ==> Apply(b, s, a).shared.rows == s.shared.rows
  {
  }

  lemma AuditVouches(b: Batch, s: State, a: Action)
    requires Enabled(b, s, a) && a.AuditReturns?
    ensures a.w < |Apply(b, s, a).workers| && Vouched(b, Apply(b, s, a), Apply(b, s, a).workers[a.w])
  {
  }

  /** An answer in a worker's hands comes from an audit, and is carried along until it is settled. */
  lemma AnswerCarried(b: Batch, s: State, a: Action)
    requires Enabled(b, s, a) && Moves(a) && !a.AuditReturns?
    ensures a.w < |s.workers| && a.w < |Apply(b, s, a).workers|
    ensures var pc, pc' := s.workers[a.w], Apply(b, s, a).workers[a.w];
      (pc'.Audited? || pc'.Replied?) && pc'.reply.Answer? ==>
        pc.Audited? && pc.job == pc'.job && pc.reply == pc'.reply
  {
  }

  lemma VouchStep(b: Batch, s: State, a: Action)
    requires Enabled(b, s, a) && Moves(a) && a.w < |s.workers| && Vouched(b, s, s.workers[a.w])
    ensures a.w < |Apply(b, s, a).workers| && Vouched(b, Apply(b, s, a), Apply(b, s, a).workers[a.w])
  {
    if a.AuditReturns? {
      AuditVouches(b, s, a);
    } else {
      AnswerCarried(b, s, a);
      PassedGrows(b, s, a);
    }
  }

  lemma PublicationStep(b: Batch, s: State, a: Action)
    requires Canonical(b) && Publication(b, s) && Enabled(b, s, a)
    ensures Publication(b, Apply(b, s, a))
  {
    var t := Apply(b, s, a);
    PassedGrows(b, s, a);
    if a.Settle? {
      SettlePublishes(b, s, a.w, a.now, a.outcome);
      PublishedMonotone(t.shared.rows, s.shared.passed, t.shared.passed);
    } else {
      PublishedMonotone(s.shared.rows, s.shared.passed, t.shared.passed);
    }
    if Moves(a) {
      OneMoves(b, s, a);
      VouchStep(b, s, a);
    } else {
      CollectorFrame(b, s, a);
    }
  }

  // --- Over whole schedules -----------------------------------------------------------------

  /** At every point of every schedule at most one audit is in flight, every audit starts no earlier
      than the end of the one before plus the interval, and the gate is left as it was found. */
  lemma {:induction false} AuditsPaced(b: Batch, s: State, actions: seq<Action>)
    requires Shape(b, s) && PaceKept(b.env.interval, s) && Follows(b, s, actions)
    ensures var t := Final(b, s, actions);
      && PaceKept(b.env.interval, t)
      && Paced(b.env.interval, t.shared.starts, t.shared.ends)
      && (t.phase.Returned? && t.closed ==> GateIdle(b.env.interval, t.shared))
      && forall v, w | 0 <= v < |t.workers| && 0 <= w < |t.workers|
           && t.workers[v].Auditing? && t.workers[w].Auditing? :: v == w
    decreases |actions|
  {
    if actions != [] {
      ShapeKept(b, s, actions[0]);
      PaceStep(b, s, actions[0]);
      AuditsPaced(b, Apply(b, s, actions[0]), actions[1..]);
    } else {
      assert forall w | 0 <= w < |s.workers| && s.workers[w].Auditing? :: HoldsGate(s.workers[w]);
    }
  }

  /** The publication gate holds at every point of every schedule, complete or cut short. */
  lemma {:induction false} GateKeptByPool(b: Batch, s: State, actions: seq<Action>)
    requires Canonical(b) && Publication(b, s) && Follows(b, s, actions)
    ensures Publication(b, Final(b, s, actions))
    ensures s.shared.passed <= Final(b, s, actions).shared.passed
    decreases |actions|
  {
    if actions != [] {
      PublicationStep(b, s, actions[0]);
      PassedGrows(b, s, actions[0]);
      GateKeptByPool(b, Apply(b, s, actions[0]), actions[1..]);
    }
  }

  /** An audit of these contents that returned a passing answer. */
  ghost predicate Earns(b: Batch, t: State, a: Action, contents: string) {
    && Enabled(b, t, a) && a.AuditReturns?
    && a.answer.Some? && a.answer.value.status == "pass" && a.answer.value.score >= 5 && a.answer.value.quality >= 5
    && b.eligible[t.workers[a.w].job].contents == contents
  }

  lemma PassedBy(b: Batch, s: State, a: Action, contents: string)
    requires Enabled(b, s, a)
    ensures contents in Apply(b, s, a).shared.passed <==> contents in s.shared.passed || Earns(b, s, a, contents)
  {
  }

  /** The record of passing audits is exact: contents are on it after a schedule if they were before or an
      audit of them returned a passing answer on the way, and for no other reason. */
  lemma {:induction false} PassedAreEarned(b: Batch, s: State, actions: seq<Action>, contents: string)
    requires Follows(b, s, actions)
    ensures contents in Final(b, s, actions).shared.passed <==>
      contents in s.shared.passed
      || exists k :: 0 <= k < |actions| && Follows(b, s, actions[..k])
           && Earns(b, Final(b, s, actions[..k]), actions[k], contents)
    decreases |actions|
  {
    if actions != [] {
      var t, rest := Apply(b, s, actions[0]), actions[1..];
      PassedBy(b, s, actions[0], contents);
      PassedAreEarned(b, t, rest, contents);
      assert actions[..0] == [];
      forall k | 0 <= k < |rest|
        ensures Follows(b, t, rest[..k]) <==> Follows(b, s, actions[..k + 1])
        ensures Follows(b, t, rest[..k]) ==> Final(b, t, rest[..k]) == Final(b, s, actions[..k + 1])
      {
        assert actions[..k + 1][1..] == rest[..k];
      }
      if k :| 0 <= k < |rest| && Follows(b, t, rest[..k]) && Earns(b, Final(b, t, rest[..k]), rest[k], contents) {
        assert Earns(b, Final(b, s, actions[..k + 1]), actions[k + 1], contents);
      }
      if k :| 0 <= k < |actions| && Follows(b, s, actions[..k])
              && Earns(b, Final(b, s, actions[..k]), actions[k], contents) {
        if k == 0 {
          assert Earns(b, s, actions[0], contents);
        } else {
          assert rest[k - 1] == actions[k] && actions[..(k - 1) + 1] == actions[..k];
        }
      }
    }
  }
}
