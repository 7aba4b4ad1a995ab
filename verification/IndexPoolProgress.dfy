/** Deadlock freedom and termination of the worker pool, under every schedule. */
module IndexPoolProgress {
  import opened Catalog
  import opened IndexPool
  import opened Sequences

  predicate HasJob(pc: Worker) {
    !pc.Top? && !pc.Sending? && !pc.Exited?
  }

  predicate HoldsGate(pc: Worker) {
    pc.Locked? || pc.Waiting? || pc.Auditing? || pc.Audited?
  }

  /** Jobs are in range, and the gate's holder is the one worker inside it. */
  ghost predicate Shape(b: Batch, s: State) {
    && |s.workers| == b.width
    && s.next <= |b.eligible|
    && (forall w | 0 <= w < |s.workers| && HasJob(s.workers[w]) :: s.workers[w].job < s.next)
    && (s.holder.Some? ==> s.holder.value < |s.workers| && HoldsGate(s.workers[s.holder.value]))
    && (forall w | 0 <= w < |s.workers| && HoldsGate(s.workers[w]) :: s.holder == Some(w))
    && (s.closed ==> forall w | 0 <= w < |s.workers| :: s.workers[w].Exited?)
  }

  predicate Moves(a: Action) {
    !a.CloseResults? && !a.Receive? && !a.Return? && !a.CallerCancels?
  }

  /** A step of a worker touches its own program counter only. */
  lemma OneMoves(b: Batch, s: State, a: Action)
    requires Enabled(b, s, a) && Moves(a)
    ensures var t := Apply(b, s, a);
      && a.w < |s.workers| && t.workers == s.workers[a.w := t.workers[a.w]]
      && t.closed == s.closed && t.phase == s.phase && t.callerDone == s.callerDone
      && (a.Take? || (t.next == s.next
                      && (HasJob(t.workers[a.w]) ==>
                          HasJob(s.workers[a.w]) && t.workers[a.w].job == s.workers[a.w].job)))
  {
  }

  /** The gate is taken on entry and released on exit, by the same worker. */
  lemma OneLocks(b: Batch, s: State, a: Action)
    requires Enabled(b, s, a) && Moves(a)
    ensures var t := Apply(b, s, a);
      && (HoldsGate(t.workers[a.w]) && !HoldsGate(s.workers[a.w]) ==> s.holder.None? && t.holder == Some(a.w))
      && (HoldsGate(s.workers[a.w]) && !HoldsGate(t.workers[a.w]) ==> t.holder.None?)
      && (HoldsGate(s.workers[a.w]) == HoldsGate(t.workers[a.w]) ==> t.holder == s.holder)
  {
  }

  lemma JobsInRange(b: Batch, s: State, a: Action)
    requires Shape(b, s) && Enabled(b, s, a) && Moves(a)
    ensures var t := Apply(b, s, a);
      && s.next <= t.next <= |b.eligible| && a.w < |t.workers|
      && (HasJob(t.workers[a.w]) ==> t.workers[a.w].job < t.next)
  {
  }

  lemma ShapeOutside(b: Batch, s: State, a: Action)
    requires Shape(b, s) && Enabled(b, s, a) && !Moves(a)
    ensures Shape(b, Apply(b, s, a))
  {
  }

  lemma NotExited(b: Batch, s: State, a: Action)
    requires Enabled(b, s, a) && Moves(a)
    ensures a.w < |s.workers| && !s.workers[a.w].Exited?
  {
  }

  /** A worker's move keeps the shape, whatever the move. */
  lemma MoveKeepsShape(b: Batch, s: State, t: State, w: nat)
    requires Shape(b, s) && w < |s.workers| && w < |t.workers| && t.workers == s.workers[w := t.workers[w]]
    requires t.closed == s.closed && !s.workers[w].Exited? && s.next <= t.next <= |b.eligible|
    requires HasJob(t.workers[w]) ==> t.workers[w].job < t.next
    requires HoldsGate(t.workers[w]) && !HoldsGate(s.workers[w]) ==> s.holder.None? && t.holder == Some(w)
    requires HoldsGate(s.workers[w]) && !HoldsGate(t.workers[w]) ==> t.holder.None?
    requires HoldsGate(s.workers[w]) == HoldsGate(t.workers[w]) ==> t.holder == s.holder
    ensures Shape(b, t)
  {
  }

  lemma ShapeKept(b: Batch, s: State, a: Action)
    requires Shape(b, s) && Enabled(b, s, a)
    ensures Shape(b, Apply(b, s, a))
  {
    if Moves(a) {
      OneMoves(b, s, a);
      OneLocks(b, s, a);
      JobsInRange(b, s, a);
      NotExited(b, s, a);
      MoveKeepsShape(b, s, Apply(b, s, a), a.w);
    } else {
      ShapeOutside(b, s, a);
    }
  }

  function Rank(pc: Worker): nat {
    match pc
    case Exited => 0
    case Top => 1
    case Sending(_) => 3
    case Replied(_, _) => 4
    case Audited(_, _) => 5
    case Auditing(_) => 6
    case Waiting(_) => 7
    case Locked(_) => 8
    case Want(_) => 9
    case Took(_) => 10
  }

  /** An upper bound on the number of steps that are left. */
  function Left(b: Batch, s: State): int {
    10 * (|b.eligible| - s.next) + Sum(Rank, s.workers) + |s.queue| + (if s.closed then 0 else 1)
    + (if s.phase.Returned? then 0 else 1) + (if s.callerDone then 0 else 1)
  }

  lemma OneUses(b: Batch, s: State, a: Action)
    requires Enabled(b, s, a) && Moves(a)
    ensures var t := Apply(b, s, a);
      && a.w < |s.workers| && a.w < |t.workers|
      && Rank(t.workers[a.w]) + |t.queue| - 10 * t.next < Rank(s.workers[a.w]) + |s.queue| - 10 * s.next
  {
  }

  /** Every step uses up at least one unit of the bound, whoever moves. */
  lemma EveryStepCounts(b: Batch, s: State, a: Action)
    requires Shape(b, s) && Enabled(b, s, a)
    ensures Left(b, Apply(b, s, a)) < Left(b, s)
  {
    var t := Apply(b, s, a);
    if Moves(a) {
      OneMoves(b, s, a);
      OneUses(b, s, a);
      SumUpdate(Rank, s.workers, a.w, t.workers[a.w]);
    }
  }

  lemma LeftBounded(b: Batch, s: State)
    requires Shape(b, s)
    ensures Left(b, s) >= 0
  {
  }

  /** A step of worker `w`, when it is neither blocked on the gate nor on a full queue. */
  function StepOf(s: State, w: nat): Action
    requires w < |s.workers|
  {
    var late := if s.shared.clock >= s.shared.nextStart then s.shared.clock else s.shared.nextStart;
    match s.workers[w]
    case Top => Take(w)
    case Took(_) => CheckContext(w)
    case Want(_) => Lock(w)
    case Locked(_) => EnterGate(w, late)
    case Waiting(_) => TimerFires(w, late)
    case Auditing(_) => AuditReturns(w, s.shared.clock, None)
    case Audited(_, _) => Unlock(w, s.shared.clock)
    case Replied(_, _) => Settle(w, s.shared.clock, Applied)
    case Sending(_) => Send(w)
    case Exited => Return
  }

  predicate Running(pc: Worker) {
    !pc.Exited?
  }

  /** No reachable state is stuck before the batch has returned: here is a step. */
  function SomeStep(b: Batch, s: State): (a: Action)
    requires Shape(b, s) && s.phase.Collecting? && b.width >= 1
    ensures Enabled(b, s, a)
  {
    var w := FirstWhere(Running, s.workers);
    if s.queue != [] then Receive
    else if w == |s.workers| then (if s.closed then Return else CloseResults)
    else if s.workers[w].Want? && s.holder.Some? then StepOf(s, s.holder.value)
    else StepOf(s, w)
  }

  lemma {:induction false} ShapeAlways(b: Batch, s: State, actions: seq<Action>)
    requires Shape(b, s) && Follows(b, s, actions)
    ensures Shape(b, Final(b, s, actions))
    ensures |actions| + Left(b, Final(b, s, actions)) <= Left(b, s)
    decreases |actions|
  {
    if actions != [] {
      ShapeKept(b, s, actions[0]);
      EveryStepCounts(b, s, actions[0]);
      ShapeAlways(b, Apply(b, s, actions[0]), actions[1..]);
    }
  }

  lemma {:induction false} FollowsAppend(b: Batch, s: State, actions: seq<Action>, a: Action)
    requires Follows(b, s, actions) && Enabled(b, Final(b, s, actions), a)
    ensures Follows(b, s, actions + [a])
    ensures Final(b, s, actions + [a]) == Apply(b, Final(b, s, actions), a)
    decreases |actions|
  {
    if actions == [] {
      assert ([] + [a])[1..] == [];
      assert Final(b, Apply(b, s, a), []) == Apply(b, s, a);
    } else {
      FollowsAppend(b, Apply(b, s, actions[0]), actions[1..], a);
      assert (actions + [a])[1..] == actions[1..] + [a];
    }
  }

  /** Any schedule, however the environment behaves, is at most this long; one that cannot be
      extended has returned from the batch. */
  lemma PoolTerminates(b: Batch, shared: Shared, actions: seq<Action>)
    requires b.width >= 1 && Follows(b, Init(b, shared), actions)
    ensures |actions| <= 10 * |b.eligible| + b.width + 3
    ensures Final(b, Init(b, shared), actions).phase.Returned?
        || exists a :: Follows(b, Init(b, shared), actions + [a])
  {
    var s := Init(b, shared);
    SumAlike(Rank, s.workers, 1);
    ShapeAlways(b, s, actions);
    var t := Final(b, s, actions);
    LeftBounded(b, t);
    if t.phase.Collecting? {
      FollowsAppend(b, s, actions, SomeStep(b, t));
    }
  }
}
