/**
 The worker pool of one batch: bounded workers over a closed job channel, a bounded FIFO of
 results, a collector that cancels on the first error, and the mutex that serializes audits.
 Every interleaving is a sequence of actions; what the environment decides (clock readings, audit
 answers, store failures, cancellation of the caller) is the payload of an action.
 */
module IndexPool {
  import opened Catalog

  /** Who cancelled the context the workers see. */
  datatype Cause = Caller | Collector

  datatype Fault =
    | Cancelled(cause: Cause)
    | Deferred(job: nat)
    | StoreError(job: nat)

  datatype Status = Stored | Weak | Failed | Unset

  /** What one candidate did to the table. */
  datatype Effect = Put(row: Row) | Drop | Keep

  datatype Result = Result(job: nat, status: Status, fault: Option<Fault>, effect: Effect)

  /** What auditWithCooldown answered; `Unaudited` when there is no auditor. */
  datatype Reply = Answer(a: Assessment) | AuditError | GateCancelled | Unaudited

  /** The program counter of a worker. */
  datatype Worker =
    | Top
    | Took(job: nat)
    | Want(job: nat)
    | Locked(job: nat)
    | Waiting(job: nat)
    | Auditing(job: nat)
    | Audited(job: nat, reply: Reply)
    | Replied(job: nat, reply: Reply)
    | Sending(result: Result)
    | Exited

  /** What became of a store statement; an unreported one took effect although the driver, or the
      cancellation of its context, reported an error. */
  datatype StoreOutcome = Applied | Refused | Interrupted | Unreported

  datatype Tally = Tally(stored: nat, weak: nat, failed: nat)

  datatype Phase = Collecting | Returned(fault: Option<Fault>)

  /** `settled`, `seen` and `dropped` record history: results in the order their effect reached the
      table, results in the order the collector received them, jobs abandoned after a cancellation. */
  datatype State = State(
    next: nat, workers: seq<Worker>, queue: seq<Result>, closed: bool,
    callerDone: bool, cancelled: Option<Cause>, holder: Option<nat>, shared: Shared,
    settled: seq<Result>, seen: seq<Result>, dropped: seq<nat>,
    tally: Tally, fault: Option<Fault>, phase: Phase)

  datatype Batch = Batch(env: Env, eligible: seq<Candidate>, width: nat)

  datatype Action =
    | Take(w: nat)
    | CheckContext(w: nat)
    | Lock(w: nat)
    | EnterGate(w: nat, now: int)
    | TimerFires(w: nat, now: int)
    | StopWaiting(w: nat)
    | AuditReturns(w: nat, now: int, answer: Option<Assessment>)
    | Unlock(w: nat, now: int)
    | Settle(w: nat, now: int, outcome: StoreOutcome)
    | Send(w: nat)
    | CloseResults
    | Receive
    | Return
    | CallerCancels

  function Init(b: Batch, shared: Shared): State {
    State(0, seq(b.width, _ => Top), [], false, false, None, None, shared, [], [], [],
          Tally(0, 0, 0), None, Collecting)
  }

  // --- What one settled candidate amounts to -----------------------------------------------

  /** Why a statement that was not reported as applied failed. */
  function StatementFault(j: nat, cancelled: Option<Cause>, outcome: StoreOutcome): Fault {
    if cancelled.Some? && !outcome.Refused? then Cancelled(cancelled.value) else StoreError(j)
  }

  function PutResult(b: Batch, j: nat, a: Assessment, checked: bool, cancelled: Option<Cause>, outcome: StoreOutcome,
                     now: int): Result
    requires j < |b.eligible|
  {
    var c := b.eligible[j];
    var row := RowFor(b.env, c, a, checked, now);
    if !Storable(c.files) then Result(j, Failed, None, Keep)
    else if outcome.Applied? && RowAccepted(row) then Result(j, Stored, None, Put(row))
    else if outcome.Unreported? && RowAccepted(row) then
      Result(j, Unset, Some(StatementFault(j, cancelled, outcome)), Put(row))
    else Result(j, Unset, Some(StatementFault(j, cancelled, outcome)), Keep)
  }

  function SettleResult(b: Batch, j: nat, reply: Reply, cancelled: Option<Cause>, outcome: StoreOutcome,
                        now: int): Result
    requires j < |b.eligible|
  {
    match reply
    case Answer(a) =>
      if Passing(a) then PutResult(b, j, a, true, cancelled, outcome, now)
      else if outcome.Applied? then Result(j, Weak, None, Drop)
      else Result(j, Unset, Some(StatementFault(j, cancelled, outcome)), if outcome.Unreported? then Drop else Keep)
    case Unaudited => PutResult(b, j, UNCHECKED, false, cancelled, outcome, now)
    case _ =>
      if cancelled.Some? then Result(j, Unset, Some(Cancelled(cancelled.value)), Keep)
      else Result(j, Failed, Some(Deferred(j)), Keep)
  }

  function ApplyEffect(rows: Rows, id: string, e: Effect): Rows {
    match e
    case Put(row) => rows[id := row]
    case Drop => rows - {id}
    case Keep => rows
  }

  // --- The transition relation -------------------------------------------------------------

  predicate At(b: Batch, s: State, w: nat) {
    w < |s.workers| && (s.workers[w].Took? || s.workers[w].Want? || s.workers[w].Locked? || s.workers[w].Waiting?
      || s.workers[w].Auditing? || s.workers[w].Audited? || s.workers[w].Replied?) && s.workers[w].job < |b.eligible|
  }

  predicate Enabled(b: Batch, s: State, a: Action) {
    && s.phase.Collecting?
    && match a
       case Take(w) => w < |s.workers| && s.workers[w].Top?
       case CheckContext(w) => At(b, s, w) && s.workers[w].Took?
       case Lock(w) => At(b, s, w) && s.workers[w].Want? && s.holder.None?
       case EnterGate(w, now) => At(b, s, w) && s.workers[w].Locked? && now >= s.shared.clock
       case TimerFires(w, now) =>
         At(b, s, w) && s.workers[w].Waiting? && now >= s.shared.clock && now >= s.shared.nextStart
       case StopWaiting(w) => At(b, s, w) && s.workers[w].Waiting? && s.cancelled.Some?
       case AuditReturns(w, now, _) => At(b, s, w) && s.workers[w].Auditing? && now >= s.shared.clock
       case Unlock(w, now) => At(b, s, w) && s.workers[w].Audited? && now >= s.shared.clock
       case Settle(w, now, _) => At(b, s, w) && s.workers[w].Replied? && now >= s.shared.clock
       case Send(w) => w < |s.workers| && s.workers[w].Sending? && |s.queue| < b.width
       case CloseResults => !s.closed && forall w | 0 <= w < |s.workers| :: s.workers[w].Exited?
       case Receive => s.queue != []
       case Return => s.queue == [] && s.closed
       case CallerCancels => !s.callerDone
  }

  function Move(s: State, w: nat, pc: Worker): State
    requires w < |s.workers|
  {
    s.(workers := s.workers[w := pc])
  }

  function BeginAudit(s: State, w: nat, now: int): State
    requires w < |s.workers| && (s.workers[w].Locked? || s.workers[w].Waiting?)
  {
    Move(s, w, Auditing(s.workers[w].job))
      .(shared := s.shared.(clock := now, starts := s.shared.starts + [now]))
  }

  function EndAudit(b: Batch, s: State, w: nat, now: int, answer: Option<Assessment>): State
    requires At(b, s, w)
  {
    var j := s.workers[w].job;
    var reply := if answer.Some? then Answer(answer.value) else AuditError;
    var passed := if answer.Some? && Passing(answer.value) then {b.eligible[j].contents} else {};
    Move(s, w, Audited(j, reply))
      .(shared := s.shared.(clock := now, ends := s.shared.ends + [now], passed := s.shared.passed + passed))
  }

  function SettleJob(b: Batch, s: State, w: nat, now: int, outcome: StoreOutcome): State
    requires At(b, s, w) && s.workers[w].Replied?
  {
    var j := s.workers[w].job;
    var r := SettleResult(b, j, s.workers[w].reply, s.cancelled, outcome, now);
    Move(s, w, Sending(r))
      .(shared := s.shared.(clock := now, rows := ApplyEffect(s.shared.rows, b.eligible[j].id, r.effect)),
        settled := s.settled + [r])
  }

  function Count(t: Tally, st: Status): Tally {
    match st
    case Stored => t.(stored := t.stored + 1)
    case Weak => t.(weak := t.weak + 1)
    case Failed => t.(failed := t.failed + 1)
    case Unset => t
  }

  function ReceiveOne(s: State): State
    requires s.queue != []
  {
    var r := s.queue[0];
    var s' := s.(queue := s.queue[1..], seen := s.seen + [r], tally := Count(s.tally, r.status));
    if r.fault.Some? && s.fault.None? then
      s'.(fault := r.fault, cancelled := if s.cancelled.None? then Some(Collector) else s.cancelled)
    else s'
  }

  function Apply(b: Batch, s: State, a: Action): State
    requires Enabled(b, s, a)
  {
    match a
    case Take(w) =>
      if s.next < |b.eligible| then Move(s, w, Took(s.next)).(next := s.next + 1) else Move(s, w, Exited)
    case CheckContext(w) =>
      var j := s.workers[w].job;
      if s.cancelled.Some? then Move(s, w, Exited).(dropped := s.dropped + [j])
      else Move(s, w, if b.env.auditing then Want(j) else Replied(j, Unaudited))
    case Lock(w) => Move(s, w, Locked(s.workers[w].job)).(holder := Some(w))
    case EnterGate(w, now) =>
      if now >= s.shared.nextStart then BeginAudit(s, w, now)
      else Move(s, w, Waiting(s.workers[w].job)).(shared := s.shared.(clock := now))
    case TimerFires(w, now) => BeginAudit(s, w, now)
    case StopWaiting(w) => Move(s, w, Replied(s.workers[w].job, GateCancelled)).(holder := None)
    case AuditReturns(w, now, answer) => EndAudit(b, s, w, now, answer)
    case Unlock(w, now) =>
      Move(s, w, Replied(s.workers[w].job, s.workers[w].reply))
        .(holder := None, shared := s.shared.(clock := now, nextStart := now + b.env.interval))
    case Settle(w, now, outcome) => SettleJob(b, s, w, now, outcome)
    case Send(w) => Move(s, w, Top).(queue := s.queue + [s.workers[w].result])
    case CloseResults => s.(closed := true)
    case Receive => ReceiveOne(s)
    case Return =>
      s.(phase := Returned(if s.fault.Some? then s.fault else if s.callerDone then Some(Cancelled(Caller)) else None))
    case CallerCancels =>
      s.(callerDone := true, cancelled := if s.cancelled.None? then Some(Caller) else s.cancelled)
  }

  /** A schedule that the machine can follow from `s`. */
  predicate Follows(b: Batch, s: State, actions: seq<Action>)
    decreases |actions|
  {
    actions == [] || (Enabled(b, s, actions[0]) && Follows(b, Apply(b, s, actions[0]), actions[1..]))
  }

  function Final(b: Batch, s: State, actions: seq<Action>): State
    requires Follows(b, s, actions)
    decreases |actions|
  {
    if actions == [] then s else Final(b, Apply(b, s, actions[0]), actions[1..])
  }
}
