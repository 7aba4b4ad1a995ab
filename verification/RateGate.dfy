/**
 The rate-limit gate shared by all GitHub requests. Every worker runs getJSON: pass the gate, send,
 and after a rate-limited answer block the gate and try again, four requests at most. The gate's
 mutex is held while a worker waits. Time is counted in nanoseconds; `Retry-After` is read as
 section 10.2.3 of RFC 9110 has it.
 */
module RateGate {
  import opened Catalog

  datatype Resource = Core | CodeSearch

  const MAX_RETRIES: nat := 3

  /** A `Retry-After` header: absent, a number of seconds, a date, or neither. */
  datatype RetryAfter = Absent | Delay(seconds: int) | Date(at: int) | Unreadable

  /** The headers of an answer, numbers parsed; `remainingIsZero` compares the text with "0". */
  datatype Headers = Headers(retryAfter: RetryAfter, remainingIsZero: bool, remaining: Option<int>, reset: Option<int>)

  datatype Reply =
    | NoReply
    | Success(headers: Headers, decodes: bool)
    | Refusal(status: int, headers: Headers, mentionsLimit: bool)

  function Seconds(s: int): int {
    s * 1_000_000_000
  }

  /** The factor of the attempt: doubling, sixteen at most. */
  function Backoff(attempt: nat): (f: nat)
    ensures f >= 1
  {
    if attempt == 0 then 1 else if attempt >= 4 then 16 else 2 * Backoff(attempt - 1)
  }

  predicate Limited(status: int, headers: Headers, mentionsLimit: bool) {
    && (status == 403 || status == 429)
    && (status == 429 || !headers.retryAfter.Absent? || headers.remainingIsZero || mentionsLimit)
  }

  /** When to try again. */
  function ResetTime(headers: Headers, attempt: nat, now: int): int {
    var asked := match headers.retryAfter
      case Delay(seconds) => Some(now + Seconds(seconds) * Backoff(attempt))
      case Date(at) => Some(at)
      case _ => None;
    var latest :=
      if headers.remainingIsZero && headers.reset.Some? && (asked.None? || Seconds(headers.reset.value) > asked.value)
      then Some(Seconds(headers.reset.value)) else asked;
    if latest.None? || latest.value < now then now + Seconds(60) * Backoff(attempt) else latest.value
  }

  /** The moments the server asks to wait for. */
  function Wanted(headers: Headers, attempt: nat, now: int): set<int> {
    (match headers.retryAfter
     case Delay(seconds) => {now + Seconds(seconds) * Backoff(attempt)}
     case Date(at) => {at}
     case _ => {})
    + (if headers.remainingIsZero && headers.reset.Some? then {Seconds(headers.reset.value)} else {})
  }

  /** The moment of the next attempt is never in the past; it is the latest moment the server asked for
      unless that has passed or it asked for none, and then a number of minutes that doubles. */
  lemma ResetIsLatestWanted(headers: Headers, attempt: nat, now: int)
    ensures var until := ResetTime(headers, attempt, now);
      && until >= now
      && ((exists t :: t in Wanted(headers, attempt, now) && t >= now) ==>
            until in Wanted(headers, attempt, now) && forall t | t in Wanted(headers, attempt, now) :: t <= until)
      && ((forall t | t in Wanted(headers, attempt, now) :: t < now) ==> until == now + Seconds(60) * Backoff(attempt))
  {
    MinutesAhead(attempt);
    var wanted := Wanted(headers, attempt, now);
    match headers.retryAfter {
      case Delay(seconds) => assert now + Seconds(seconds) * Backoff(attempt) in wanted;
      case Date(at) => assert at in wanted;
      case _ =>
    }
    if headers.remainingIsZero && headers.reset.Some? {
      assert Seconds(headers.reset.value) in wanted;
    }
  }

  lemma MinutesAhead(attempt: nat)
    ensures Seconds(60) * Backoff(attempt) > 0
  {
  }

  /** A delay of `seconds`, however often it is given, is honoured and doubled by every retry. */
  lemma DelayHonoured(headers: Headers, attempt: nat, now: int, seconds: nat)
    requires headers.retryAfter == Delay(seconds)
    ensures ResetTime(headers, attempt, now) >= now + Seconds(seconds) * Backoff(attempt)
    ensures ResetTime(headers, attempt, now) >= now
  {
    var wanted := now + Seconds(seconds) * Backoff(attempt);
    assert wanted in Wanted(headers, attempt, now);
    ResetIsLatestWanted(headers, attempt, now);
    Positive(seconds, attempt);
  }

  lemma Positive(seconds: nat, attempt: nat)
    ensures Seconds(seconds) * Backoff(attempt) >= 0
  {
  }

  /** What a successful answer makes the gate wait for. */
  function Observed(headers: Headers): Option<int> {
    if headers.remaining == Some(0) && headers.reset.Some? then Some(Seconds(headers.reset.value)) else None
  }

  // --- The gate object ----------------------------------------------------------------------------

  /** A rate-limited answer: when it was read, and until when it blocks. */
  datatype Answer = Answer(headers: Headers, now: int, until: int)

  datatype Outcome = Succeeded | Exhausted | OtherError | ContextError

  /** Each answer blocks until the time computed from it, and the next one is read no earlier. */
  ghost predicate Chained(log: seq<Answer>, k: nat)
    requires k < |log|
  {
    log[k].until == ResetTime(log[k].headers, k, log[k].now) && (k + 1 < |log| ==> log[k].until <= log[k + 1].now)
  }

  type Blocks = map<Resource, int>

  function Raised(blocks: Blocks, resource: Resource, until: int): Blocks {
    if resource in blocks && until <= blocks[resource] then blocks else blocks[resource := until]
  }

  /** No resource is blocked for less long than before. */
  ghost predicate Risen(before: Blocks, after: Blocks) {
    forall r | r in before :: r in after && before[r] <= after[r]
  }

  /** The first answers of a call have been recorded in the gate. */
  ghost predicate Noticed(log: seq<Answer>, n: nat, resource: Resource, blocks: Blocks) {
    forall k | 0 <= k < |log| && k < n :: BlockedUntil(blocks, resource, log[k].until)
  }

  predicate BlockedUntil(blocks: Blocks, resource: Resource, until: int) {
    resource in blocks && until <= blocks[resource]
  }

  /** What one call meets: clock readings, answers, whether its context is cancelled and its requests can
      be built, and what other workers recorded before it enters the gate, all by the step it is at. */
  datatype Surroundings = Surroundings(
    clock: nat -> int, reply: nat -> Reply, cancelled: nat -> bool, ready: nat -> bool,
    others: nat -> Option<(Resource, int)>)

  /** The answer at a step was rate limited, with these headers. */
  predicate Refused(s: Surroundings, step: nat, answer: Answer) {
    match s.reply(step)
    case Refusal(status, headers, mentionsLimit) => Limited(status, headers, mentionsLimit) && headers == answer.headers
    case _ => false
  }

  /** Every logged answer was rate limited at its attempt, and blocks until the time computed from it. */
  ghost predicate Retried(s: Surroundings, log: seq<Answer>) {
    forall k | 0 <= k < |log| :: Chained(log, k) && Refused(s, 3 * k, log[k])
  }

  /** Why a call ends at a step without exhausting its retries. */
  predicate Explained(s: Surroundings, step: nat, outcome: Outcome) {
    if s.cancelled(step) then outcome.ContextError?
    else if !s.ready(step) then outcome.OtherError?
    else match s.reply(step)
      case NoReply => outcome.OtherError?
      case Success(_, decodes) => outcome == if decodes then Succeeded else OtherError
      case Refusal(status, headers, mentionsLimit) => !Limited(status, headers, mentionsLimit) && outcome.OtherError?
  }

  /** Which answers are rate limits: every 429, a 403 that says when to retry, has nothing remaining or
      mentions the limit, and no other answer. */
  predicate LimitedReply(reply: Reply) {
    match reply
    case Refusal(status, headers, mentionsLimit) =>
      status == 429
      || (status == 403 && (headers.retryAfter != Absent || headers.remainingIsZero || mentionsLimit))
    case _ => false
  }

  lemma LimitedIs(status: int, headers: Headers, mentionsLimit: bool)
    ensures Limited(status, headers, mentionsLimit) <==> LimitedReply(Refusal(status, headers, mentionsLimit))
  {
  }

  /** The answer to a call's request after so many retries. */
  function ReplyTo(s: Surroundings, attempt: nat): Reply {
    s.reply(3 * attempt)
  }

  /** Nobody cancels the call's context, and its requests can be built. */
  ghost predicate Calm(s: Surroundings) {
    forall step :: !s.cancelled(step) && s.ready(step)
  }

  ghost predicate LimitedUpTo(s: Surroundings, n: nat) {
    forall k | 0 <= k < n :: LimitedReply(ReplyTo(s, k))
  }

  /** What a call comes to by the answers to its requests: the first one of four that is not a rate limit
      decides, and without one the retries are exhausted. */
  ghost predicate DecidedBy(s: Surroundings, outcome: Outcome, sent: nat) {
    && (LimitedUpTo(s, 4) ==> outcome == Exhausted && sent == 4)
    && forall n | 0 <= n < 4 && LimitedUpTo(s, n) && !LimitedReply(ReplyTo(s, n)) ::
         sent == n + 1
         && outcome == if ReplyTo(s, n).Success? && ReplyTo(s, n).decodes then Succeeded else OtherError
  }

  lemma RefusedIsLimited(s: Surroundings, log: seq<Answer>, n: nat)
    requires Retried(s, log) && n <= |log|
    ensures LimitedUpTo(s, n)
  {
    forall k | 0 <= k < n
      ensures LimitedReply(ReplyTo(s, k))
    {
      assert Chained(log, k) && Refused(s, 3 * k, log[k]);
    }
  }

  lemma CallDecided(s: Surroundings, log: seq<Answer>, outcome: Outcome, sent: nat)
    requires Calm(s) && Retried(s, log) && |log| <= 4 && (outcome.Exhausted? <==> |log| == 4)
    requires sent == if outcome.Exhausted? then 4 else |log| + 1
    requires !outcome.Exhausted? ==> Explained(s, 3 * |log|, outcome)
    ensures DecidedBy(s, outcome, sent)
  {
    RefusedIsLimited(s, log, |log|);
    if !outcome.Exhausted? {
      assert !LimitedReply(ReplyTo(s, |log|));
      forall n | 0 <= n < 4 && LimitedUpTo(s, n) && !LimitedReply(ReplyTo(s, n))
        ensures n == |log|
      {
      }
    } else {
      forall n | 0 <= n < 4
        ensures LimitedReply(ReplyTo(s, n))
      {
      }
    }
  }

  function Later(a: int, b: int): int {
    if a > b then a else b
  }

  class Gate {
    var blockedUntil: Blocks

    constructor ()
      ensures blockedUntil == map[]
    {
      blockedUntil := map[];
    }

    method Block(resource: Resource, until: int)
      modifies this
      ensures blockedUntil == Raised(old(blockedUntil), resource, until)
      ensures resource in blockedUntil
      ensures blockedUntil[resource] ==
        if resource in old(blockedUntil) && old(blockedUntil)[resource] >= until then old(blockedUntil)[resource]
        else until
      ensures forall r | r != resource ::
        (r in blockedUntil <==> r in old(blockedUntil))
          && (r in blockedUntil ==> blockedUntil[r] == old(blockedUntil)[r])
    {
      if resource !in blockedUntil || until > blockedUntil[resource] {
        blockedUntil := blockedUntil[resource := until];
      }
    }

    method Observe(resource: Resource, headers: Headers)
      modifies this
      ensures blockedUntil == match Observed(headers)
                              case None => old(blockedUntil)
                              case Some(until) => Raised(old(blockedUntil), resource, until)
      ensures headers.remaining == Some(0) && headers.reset.Some? ==>
        BlockedUntil(blockedUntil, resource, headers.reset.value * 1_000_000_000)
      ensures headers.remaining != Some(0) || headers.reset.None? ==> blockedUntil == old(blockedUntil)
    {
      if headers.remaining.None? {
        return;
      }
      if headers.remaining.value == 0 {
        if headers.reset.Some? {
          Block(resource, Seconds(headers.reset.value));
        }
      }
    }

    /** The wait in front of a request, zero when there is none. */
    method Wait(resource: Resource, now: int) returns (delay: int)
      ensures delay >= 0
      ensures resource in blockedUntil ==> now + delay >= blockedUntil[resource]
      ensures delay > 0 ==> resource in blockedUntil && now + delay == blockedUntil[resource]
    {
      delay := 0;
      if resource in blockedUntil {
        delay := blockedUntil[resource] - now;
        if delay <= 0 {
          delay := 0;
        }
      }
    }

    method RateLimitReset(status: int, headers: Headers, mentionsLimit: bool, attempt: nat, now: int)
      returns (until: int, limited: bool)
      ensures limited == Limited(status, headers, mentionsLimit)
      ensures limited <==> LimitedReply(Refusal(status, headers, mentionsLimit))
      ensures limited ==> until == ResetTime(headers, attempt, now)
    {
      if status != 403 && status != 429 {
        return 0, false;
      }
      limited := status == 429 || !headers.retryAfter.Absent? || headers.remainingIsZero || mentionsLimit;
      if !limited {
        return 0, false;
      }
      var latest: Option<int> := None;
      match headers.retryAfter {
        case Delay(seconds) => latest := Some(now + Seconds(seconds) * Backoff(attempt));
        case Date(at) => latest := Some(at);
        case _ =>
      }
      if headers.remainingIsZero && headers.reset.Some? {
        var resetAt := Seconds(headers.reset.value);
        if latest.None? || resetAt > latest.value {
          latest := Some(resetAt);
        }
      }
      if latest.None? || latest.value < now {
        latest := Some(now + Seconds(60) * Backoff(attempt));
      }
      until := latest.value;
    }

    /** Passes the gate: the clock it returns has reached what the resource was blocked until. */
    method Await(resource: Resource, s: Surroundings, step: nat, earlier: int) returns (now: int, cancelled: bool)
      modifies this
      ensures now >= earlier && Risen(old(blockedUntil), blockedUntil) && cancelled == s.cancelled(step)
      ensures !cancelled && resource in blockedUntil ==> now >= blockedUntil[resource]
    {
      if s.others(step).Some? {
        Block(s.others(step).value.0, s.others(step).value.1);
      }
      now := Later(earlier, s.clock(step));
      var delay := Wait(resource, now);
      cancelled := s.cancelled(step);
      if delay > 0 && !cancelled {
        now := Later(now + delay, s.clock(step + 1));
      }
    }

    /** The loop. At most four requests are sent; rate-limited answers block the gate, each until
        the time computed from it; the loop gives up on rate limits only after four of them, and every
        other end is explained by what it met at its last step. */
    method Attempts(resource: Resource, s: Surroundings, start: int)
      returns (outcome: Outcome, sent: nat, now: int, ghost log: seq<Answer>)
      modifies this
      ensures sent <= MAX_RETRIES + 1 && now >= start && Risen(old(blockedUntil), blockedUntil)
      ensures outcome.Exhausted? <==> |log| == MAX_RETRIES + 1
      ensures outcome.Exhausted? ==> sent == MAX_RETRIES + 1
      ensures |log| <= sent && Retried(s, log)
      ensures Calm(s) && !outcome.Exhausted? ==> sent == |log| + 1
      ensures Noticed(log, MAX_RETRIES, resource, blockedUntil)
      ensures !outcome.Exhausted? ==> Explained(s, 3 * |log|, outcome)
    {
      var attempt, step := 0, 0;
      sent, now, log := 0, start, [];
      while true
        invariant attempt == sent == |log| <= MAX_RETRIES && now >= start && Risen(old(blockedUntil), blockedUntil)
        invariant Retried(s, log)
        invariant Noticed(log, |log|, resource, blockedUntil)
        invariant step == 3 * attempt
        decreases MAX_RETRIES - attempt
      {
        var cancelled;
        now, cancelled := Await(resource, s, step, now);
        if cancelled {
          return ContextError, sent, now, log;
        }
        if !s.ready(step) {
          return OtherError, sent, now, log;
        }
        sent := sent + 1;
        now := Later(now, s.clock(step + 2));
        match s.reply(step) {
          case NoReply => return OtherError, sent, now, log;
          case Success(headers, decodes) =>
            Observe(resource, headers);
            return if decodes then Succeeded else OtherError, sent, now, log;
          case Refusal(status, headers, mentionsLimit) =>
            var until, limited := RateLimitReset(status, headers, mentionsLimit, attempt, now);
            if !limited {
              return OtherError, sent, now, log;
            }
            ghost var longer := log + [Answer(headers, now, until)];
            LogGrows(s, log, Answer(headers, now, until));
            log := longer;
            if attempt >= MAX_RETRIES {
              return Exhausted, sent, now, log;
            }
            Block(resource, until);
            attempt, step := attempt + 1, step + 3;
        }
      }
    }

    /** The retry loop. At most four requests are sent; rate-limited answers block the gate, each until
        the time computed from it; the loop gives up on rate limits only after four of them, and every
        other end is explained by what it met at its last step. In a context that is not cancelled, the first
        answer that is not a rate limit decides. */
    method GetJSON(resource: Resource, s: Surroundings, start: int)
      returns (outcome: Outcome, sent: nat, now: int, ghost log: seq<Answer>)
      modifies this
      ensures sent <= MAX_RETRIES + 1 && now >= start && Risen(old(blockedUntil), blockedUntil)
      ensures outcome.Exhausted? <==> |log| == MAX_RETRIES + 1
      ensures outcome.Exhausted? ==> sent == MAX_RETRIES + 1
      ensures |log| <= sent && Retried(s, log)
      ensures Noticed(log, MAX_RETRIES, resource, blockedUntil)
      ensures !outcome.Exhausted? ==> Explained(s, 3 * |log|, outcome)
      ensures Calm(s) ==> DecidedBy(s, outcome, sent)
    {
      outcome, sent, now, log := Attempts(resource, s, start);
      if Calm(s) {
        CallDecided(s, log, outcome, sent);
      }
    }
  }

  lemma LogGrows(s: Surroundings, log: seq<Answer>, answer: Answer)
    requires Retried(s, log) && forall k | 0 <= k < |log| :: log[k].until <= answer.now
    requires answer.until == ResetTime(answer.headers, |log|, answer.now) && Refused(s, 3 * |log|, answer)
    ensures Retried(s, log + [answer])
  {
    var longer := log + [answer];
    forall k | 0 <= k < |longer|
      ensures Chained(longer, k) && Refused(s, 3 * k, longer[k])
    {
      if k < |log| {
        assert Chained(log, k) && Refused(s, 3 * k, log[k]);
      }
    }
  }

  // --- All workers ----------------------------------------------------------------------------------

  /** One getJSON: its resource, its rate-limited answers so far, and the requests it sent. */
  datatype Call = Call(resource: Resource, log: seq<Answer>, sent: nat)

  datatype Worker =
    | Idle
    | AtGate(call: Call)
    | Held(call: Call)
    | Sleeping(call: Call, until: int)
    | Passed(call: Call)
    | InFlight(call: Call)
    | Blocking(call: Call)
    | Observing(call: Call, until: int, ok: bool)
    | Finished(call: Call, outcome: Outcome)

  datatype Reset = Reset(resource: Resource, until: int)

  /** A passage of the gate: its resource, its moment, and how many resets had been recorded by then. */
  datatype Passage = Passage(resource: Resource, at: int, records: nat)

  datatype State = State(
    clock: int, blocked: Blocks, holder: Option<nat>, workers: seq<Worker>, cancelled: bool,
    recorded: seq<Reset>, passages: seq<Passage>)

  datatype Action =
    | Begin(w: nat, resource: Resource)
    | Lock(w: nat)
    | Look(w: nat, now: int)
    | Wake(w: nat, now: int)
    | StopSleeping(w: nat)
    | SendRequest(w: nat, ready: bool)
    | Respond(w: nat, now: int, reply: Reply)
    | Record(w: nat)
    | CancelContext

  function Init(width: nat, clock: int): State {
    State(clock, map[], None, seq(width, _ => Idle), false, [], [])
  }

  predicate Enabled(s: State, a: Action) {
    match a
    case Begin(w, _) => w < |s.workers| && (s.workers[w].Idle? || s.workers[w].Finished?)
    case Lock(w) => w < |s.workers| && s.workers[w].AtGate? && s.holder.None?
    case Look(w, now) => w < |s.workers| && s.workers[w].Held? && now >= s.clock
    case Wake(w, now) => w < |s.workers| && s.workers[w].Sleeping? && now >= s.clock && now >= s.workers[w].until
    case StopSleeping(w) => w < |s.workers| && s.workers[w].Sleeping? && s.cancelled
    case SendRequest(w, _) => w < |s.workers| && s.workers[w].Passed?
    case Respond(w, now, _) => w < |s.workers| && s.workers[w].InFlight? && now >= s.clock
    case Record(w) =>
      w < |s.workers| && s.holder.None?
      && (s.workers[w].Observing? || (s.workers[w].Blocking? && s.workers[w].call.log != []))
    case CancelContext => true
  }

  function Move(s: State, w: nat, pc: Worker): State
    requires w < |s.workers|
  {
    s.(workers := s.workers[w := pc])
  }

  /** What an answer makes of a call: awaitRateLimit comes next, or the call is over. */
  function Answered(call: Call, now: int, reply: Reply): Worker {
    match reply
    case NoReply => Finished(call, OtherError)
    case Success(headers, decodes) =>
      (match Observed(headers)
       case Some(until) => Observing(call, until, decodes)
       case None => Finished(call, if decodes then Succeeded else OtherError))
    case Refusal(status, headers, mentionsLimit) =>
      var attempt := |call.log|;
      if !Limited(status, headers, mentionsLimit) then Finished(call, OtherError)
      else
        var logged := call.(log := call.log + [Answer(headers, now, ResetTime(headers, attempt, now))]);
        if attempt >= MAX_RETRIES then Finished(logged, Exhausted) else Blocking(logged)
  }

  function Pass(s: State, w: nat, now: int): State
    requires w < |s.workers| && (s.workers[w].Held? || s.workers[w].Sleeping?)
  {
    var call := s.workers[w].call;
    Move(s, w, Passed(call))
      .(clock := now, holder := None, passages := s.passages + [Passage(call.resource, now, |s.recorded|)])
  }

  function Recording(s: State, w: nat, until: int, pc: Worker): State
    requires w < |s.workers| && !s.workers[w].Idle?
  {
    var resource := s.workers[w].call.resource;
    Move(s, w, pc).(blocked := Raised(s.blocked, resource, until), recorded := s.recorded + [Reset(resource, until)])
  }

  function Apply(s: State, a: Action): State
    requires Enabled(s, a)
  {
    match a
    case Begin(w, resource) => Move(s, w, AtGate(Call(resource, [], 0)))
    case Lock(w) => Move(s, w, Held(s.workers[w].call)).(holder := Some(w))
    case Look(w, now) =>
      var call := s.workers[w].call;
      if call.resource in s.blocked && s.blocked[call.resource] > now then
        Move(s, w, Sleeping(call, s.blocked[call.resource])).(clock := now)
      else if s.cancelled then Move(s, w, Finished(call, ContextError)).(clock := now, holder := None)
      else Pass(s, w, now)
    case Wake(w, now) => Pass(s, w, now)
    case StopSleeping(w) => Move(s, w, Finished(s.workers[w].call, ContextError)).(holder := None)
    case SendRequest(w, ready) =>
      var call := s.workers[w].call;
      Move(s, w, if ready then InFlight(call.(sent := call.sent + 1)) else Finished(call, OtherError))
    case Respond(w, now, reply) => Move(s, w, Answered(s.workers[w].call, now, reply)).(clock := now)
    case Record(w) =>
      var call := s.workers[w].call;
      if s.workers[w].Observing? then
        Recording(s, w, s.workers[w].until, Finished(call, if s.workers[w].ok then Succeeded else OtherError))
      else
        Recording(s, w, call.log[|call.log| - 1].until, AtGate(call))
    case CancelContext => s.(cancelled := true)
  }

  predicate Follows(s: State, actions: seq<Action>)
    decreases |actions|
  {
    actions == [] || (Enabled(s, actions[0]) && Follows(Apply(s, actions[0]), actions[1..]))
  }

  function Final(s: State, actions: seq<Action>): State
    requires Follows(s, actions)
    decreases |actions|
  {
    if actions == [] then s else Final(Apply(s, actions[0]), actions[1..])
  }

  // --- Invariants --------------------------------------------------------------------------------------

  predicate Inside(pc: Worker) {
    pc.Held? || pc.Sleeping?
  }

  ghost predicate Exclusive(s: State) {
    && (s.holder.Some? ==> s.holder.value < |s.workers| && Inside(s.workers[s.holder.value]))
    && (forall w | 0 <= w < |s.workers| && Inside(s.workers[w]) :: s.holder == Some(w))
  }

  /** For each resource the gate is blocked until the latest reset recorded for it. */
  ghost predicate GateIsMaximum(s: State) {
    && (forall r | r in s.blocked :: exists i | 0 <= i < |s.recorded| :: s.recorded[i] == Reset(r, s.blocked[r]))
    && (forall i | 0 <= i < |s.recorded| ::
          s.recorded[i].resource in s.blocked && s.recorded[i].until <= s.blocked[s.recorded[i].resource])
  }

  ghost predicate Asleep(s: State) {
    forall w | 0 <= w < |s.workers| && s.workers[w].Sleeping? ::
      s.workers[w].call.resource in s.blocked && s.blocked[s.workers[w].call.resource] == s.workers[w].until
  }

  /** Every passage happened at or after every reset recorded before it for its resource. */
  ghost predicate Respected(p: Passage, recorded: seq<Reset>) {
    p.records <= |recorded| && forall i | 0 <= i < p.records ::
      recorded[i].resource == p.resource ==> recorded[i].until <= p.at
  }

  ghost predicate PassagesRespected(s: State) {
    forall k | 0 <= k < |s.passages| :: Respected(s.passages[k], s.recorded)
  }

  ghost predicate Sensible(call: Call) {
    forall k | 0 <= k < |call.log| :: Chained(call.log, k)
  }

  predicate Since(call: Call, clock: int) {
    call.log != [] ==> call.log[|call.log| - 1].until <= clock
  }

  predicate Noted(call: Call, blocked: Blocks) {
    call.log != [] ==> call.resource in blocked && call.log[|call.log| - 1].until <= blocked[call.resource]
  }

  /** Where a call may be, and what it has done by then. */
  ghost predicate InOrder(pc: Worker, clock: int, blocked: Blocks) {
    pc.Idle? || (Sensible(pc.call) && match pc
      case Idle => true
      case AtGate(call) => call.sent == |call.log| <= MAX_RETRIES && Noted(call, blocked)
      case Held(call) => call.sent == |call.log| <= MAX_RETRIES && Noted(call, blocked)
      case Sleeping(call, _) => call.sent == |call.log| <= MAX_RETRIES && Noted(call, blocked)
      case Passed(call) => call.sent == |call.log| <= MAX_RETRIES && Since(call, clock)
      case InFlight(call) => call.sent == |call.log| + 1 <= MAX_RETRIES + 1 && Since(call, clock)
      case Blocking(call) => 1 <= call.sent == |call.log| <= MAX_RETRIES
      case Observing(call, _, _) => call.sent == |call.log| + 1 <= MAX_RETRIES + 1
      case Finished(call, outcome) =>
        call.sent <= MAX_RETRIES + 1 && (outcome.Exhausted? ==> call.sent == |call.log| == MAX_RETRIES + 1))
  }

  ghost predicate AllInOrder(s: State) {
    forall w | 0 <= w < |s.workers| :: InOrder(s.workers[w], s.clock, s.blocked)
  }

  ghost predicate Inv(s: State) {
    Exclusive(s) && GateIsMaximum(s) && Asleep(s) && PassagesRespected(s) && AllInOrder(s)
  }

  /** Only the acting worker moves; the clock and the gate only rise; records and passages accumulate. */
  lemma Frame(s: State, a: Action)
    requires Enabled(s, a)
    ensures var t := Apply(s, a);
      && |t.workers| == |s.workers| && t.clock >= s.clock
      && (a.CancelContext? ==> t == s.(cancelled := true))
      && (!a.CancelContext? ==> a.w < |s.workers| && t.workers == s.workers[a.w := t.workers[a.w]])
      && (!a.Record? ==> t.recorded == s.recorded && t.blocked == s.blocked)
      && (!a.Look? && !a.Wake? ==> t.passages == s.passages)
  {
  }

  /** A cancelled call passes the gate only if its wait had run out; otherwise it ends there. */
  lemma CancelledDoNotPass(s: State, a: Action)
    requires Enabled(s, a) && s.cancelled && (a.Look? || a.StopSleeping?)
    ensures var t := Apply(s, a);
      && t.passages == s.passages
      && (t.workers[a.w].Sleeping? || (t.workers[a.w].Finished? && t.workers[a.w].outcome.ContextError?))
  {
  }

  lemma ExclusiveKept(s: State, a: Action)
    requires Exclusive(s) && Enabled(s, a)
    ensures Exclusive(Apply(s, a))
  {
  }

  lemma RaisedIsMaximum(s: State, resource: Resource, until: int)
    requires GateIsMaximum(s)
    ensures GateIsMaximum(s.(blocked := Raised(s.blocked, resource, until),
                             recorded := s.recorded + [Reset(resource, until)]))
  {
    var more := s.recorded + [Reset(resource, until)];
    var blocked := Raised(s.blocked, resource, until);
    assert more[|s.recorded|] == Reset(resource, until);
    forall r | r in blocked
      ensures exists i | 0 <= i < |more| :: more[i] == Reset(r, blocked[r])
    {
      if r in s.blocked && blocked[r] == s.blocked[r] {
        var i :| 0 <= i < |s.recorded| && s.recorded[i] == Reset(r, s.blocked[r]);
        assert more[i] == s.recorded[i];
      }
    }
  }

  lemma SameGate(s: State, t: State)
    requires GateIsMaximum(s) && t.blocked == s.blocked && t.recorded == s.recorded
    ensures GateIsMaximum(t)
  {
    assert forall i | 0 <= i < |s.recorded| :: t.recorded[i] == s.recorded[i];
  }

  /** What a worker records: the reset it observed, or the one its last limited answer asked for. */
  function ToRecord(pc: Worker): Reset
    requires pc.Observing? || (pc.Blocking? && pc.call.log != [])
  {
    Reset(pc.call.resource, if pc.Observing? then pc.until else pc.call.log[|pc.call.log| - 1].until)
  }

  lemma RecordFrame(s: State, a: Action)
    requires Enabled(s, a) && a.Record?
    ensures var t, r := Apply(s, a), ToRecord(s.workers[a.w]);
      t.blocked == Raised(s.blocked, r.resource, r.until) && t.recorded == s.recorded + [r]
  {
  }

  lemma MaximumKept(s: State, a: Action)
    requires GateIsMaximum(s) && Enabled(s, a)
    ensures GateIsMaximum(Apply(s, a))
  {
    Frame(s, a);
    if a.Record? {
      var r := ToRecord(s.workers[a.w]);
      RecordFrame(s, a);
      RaisedIsMaximum(s, r.resource, r.until);
      SameGate(s.(blocked := Raised(s.blocked, r.resource, r.until), recorded := s.recorded + [r]), Apply(s, a));
    } else {
      SameGate(s, Apply(s, a));
    }
  }

  /** Nobody records a reset while a worker sleeps in front of the gate. */
  lemma AsleepKept(s: State, a: Action)
    requires Exclusive(s) && Asleep(s) && Enabled(s, a)
    ensures Asleep(Apply(s, a))
  {
    Frame(s, a);
    if a.Record? {
      assert forall w | 0 <= w < |s.workers| :: !Inside(s.workers[w]);
    }
  }

  /** Whoever passes the gate does so no earlier than the latest reset recorded for its resource. */
  lemma PassingIsLate(s: State, w: nat, now: int)
    requires GateIsMaximum(s) && w < |s.workers| && Inside(s.workers[w])
    requires s.workers[w].call.resource in s.blocked ==> s.blocked[s.workers[w].call.resource] <= now
    ensures Respected(Passage(s.workers[w].call.resource, now, |s.recorded|), s.recorded)
  {
  }

  lemma RespectedLonger(p: Passage, recorded: seq<Reset>, record: Reset)
    requires Respected(p, recorded)
    ensures Respected(p, recorded + [record])
  {
    assert forall i | 0 <= i < p.records :: (recorded + [record])[i] == recorded[i];
  }

  lemma PassagesKept(s: State, a: Action)
    requires GateIsMaximum(s) && Asleep(s) && PassagesRespected(s) && Enabled(s, a)
    ensures PassagesRespected(Apply(s, a))
  {
    Frame(s, a);
    var t := Apply(s, a);
    if a.Look? || a.Wake? {
      if t.passages != s.passages {
        PassingIsLate(s, a.w, a.now);
      }
    } else if a.Record? {
      forall k | 0 <= k < |t.passages|
        ensures Respected(t.passages[k], t.recorded)
      {
        RespectedLonger(s.passages[k], s.recorded, t.recorded[|s.recorded|]);
      }
    }
  }

  lemma AnswerChains(call: Call, now: int, reply: Reply)
    requires Sensible(call) && Since(call, now) && call.sent == |call.log| + 1 <= MAX_RETRIES + 1
    ensures Sensible(Answered(call, now, reply).call)
  {
    var pc := Answered(call, now, reply);
    if reply.Refusal? {
      forall k | 0 <= k < |pc.call.log|
        ensures Chained(pc.call.log, k)
      {
        if k < |call.log| {
          assert Chained(call.log, k);
        }
      }
    }
  }

  /** The acting worker stays in order. */
  lemma ActorInOrder(s: State, a: Action)
    requires Enabled(s, a) && !a.CancelContext? && Asleep(s) && InOrder(s.workers[a.w], s.clock, s.blocked)
    ensures var t := Apply(s, a); InOrder(t.workers[a.w], t.clock, t.blocked)
  {
    if a.Respond? {
      AnswerChains(s.workers[a.w].call, a.now, a.reply);
    }
  }

  /** The others stay in order although the clock moves on and the gate rises. */
  lemma OthersInOrder(pc: Worker, clock: int, blocked: Blocks, later: int, resource: Resource, until: int)
    requires InOrder(pc, clock, blocked) && later >= clock
    ensures InOrder(pc, later, blocked) && InOrder(pc, later, Raised(blocked, resource, until))
  {
  }

  lemma AllInOrderKept(s: State, a: Action)
    requires Asleep(s) && AllInOrder(s) && Enabled(s, a)
    ensures AllInOrder(Apply(s, a))
  {
    Frame(s, a);
    var t := Apply(s, a);
    forall w | 0 <= w < |t.workers|
      ensures InOrder(t.workers[w], t.clock, t.blocked)
    {
      if !a.CancelContext? && w == a.w {
        ActorInOrder(s, a);
      } else if a.Record? {
        var pc := s.workers[a.w];
        OthersInOrder(s.workers[w], s.clock, s.blocked, t.clock, pc.call.resource,
                      if pc.Observing? then pc.until else pc.call.log[|pc.call.log| - 1].until);
      } else {
        OthersInOrder(s.workers[w], s.clock, s.blocked, t.clock, Core, 0);
      }
    }
  }

  lemma {:induction false} InvAlways(s: State, actions: seq<Action>)
    requires Inv(s) && Follows(s, actions)
    ensures Inv(Final(s, actions))
    decreases |actions|
  {
    if actions != [] {
      var a := actions[0];
      ExclusiveKept(s, a);
      MaximumKept(s, a);
      AsleepKept(s, a);
      PassagesKept(s, a);
      AllInOrderKept(s, a);
      InvAlways(Apply(s, a), actions[1..]);
    }
  }

  // --- The results --------------------------------------------------------------------------------------

  /** In every run: the gate is blocked until the maximum of the recorded resets, one worker at most is
      inside it, and no worker ever passed it before a reset recorded by then for its resource. */
  lemma GateHoldsInEveryRun(width: nat, clock: int, actions: seq<Action>)
    requires Follows(Init(width, clock), actions)
    ensures var t := Final(Init(width, clock), actions);
      && GateIsMaximum(t) && PassagesRespected(t)
      && (forall v, w | 0 <= v < |t.workers| && 0 <= w < |t.workers| && Inside(t.workers[v]) && Inside(t.workers[w]) ::
          v == w)
  {
    InvAlways(Init(width, clock), actions);
  }

  /** Four answers, each read no earlier than the reset of the one before. */
  lemma ChainedDelays(log: seq<Answer>, seconds: nat)
    requires |log| == MAX_RETRIES + 1 && forall k | 0 <= k < |log| :: Chained(log, k)
    requires forall k | 0 <= k < |log| :: log[k].headers.retryAfter == Delay(seconds)
    ensures log[3].now >= log[0].now + Seconds(7 * seconds)
  {
    assert Chained(log, 0) && Chained(log, 1) && Chained(log, 2);
    DelayHonoured(log[0].headers, 0, log[0].now, seconds);
    DelayHonoured(log[1].headers, 1, log[1].now, seconds);
    DelayHonoured(log[2].headers, 2, log[2].now, seconds);
    assert Backoff(0) == 1 && Backoff(1) == 2 && Backoff(2) == 4;
  }

  /** In every run: no call sends more than four requests, a call gives up on rate limits only after
      four rate-limited answers, and with a constant `Retry-After` of `seconds` the last of these came
      at least seven times as many seconds after the first. */
  lemma RetriesBounded(width: nat, clock: int, actions: seq<Action>, w: nat)
    requires Follows(Init(width, clock), actions)
    requires w < |Final(Init(width, clock), actions).workers| && !Final(Init(width, clock), actions).workers[w].Idle?
    ensures var pc := Final(Init(width, clock), actions).workers[w];
      && pc.call.sent <= MAX_RETRIES + 1
      && (pc.Finished? && pc.outcome.Exhausted? ==>
            && |pc.call.log| == MAX_RETRIES + 1
            && forall seconds: nat ::
                 (forall k | 0 <= k < |pc.call.log| :: pc.call.log[k].headers.retryAfter == Delay(seconds)) ==>
                   pc.call.log[3].now >= pc.call.log[0].now + Seconds(7 * seconds))
  {
    var t := Final(Init(width, clock), actions);
    InvAlways(Init(width, clock), actions);
    var pc := t.workers[w];
    assert InOrder(pc, t.clock, t.blocked);
    if pc.Finished? && pc.outcome.Exhausted? {
      forall seconds: nat | forall k | 0 <= k < |pc.call.log| :: pc.call.log[k].headers.retryAfter == Delay(seconds)
        ensures pc.call.log[3].now >= pc.call.log[0].now + Seconds(7 * seconds)
      {
        ChainedDelays(pc.call.log, seconds);
      }
    }
  }

  // --- Progress -------------------------------------------------------------------------------------------

  /** The steps a call can still take. */
  function StepsLeft(pc: Worker): nat {
    var tries := if pc.Idle? || |pc.call.log| > 4 then 0 else 4 - |pc.call.log|;
    match pc
    case Idle => 0
    case Finished(_, _) => 0
    case Observing(_, _, _) => 1
    case InFlight(_) => 7 * tries + 2
    case Passed(_) => 7 * tries + 3
    case Sleeping(_, _) => 7 * tries + 4
    case Held(_) => 7 * tries + 5
    case AtGate(_) => 7 * tries + 6
    case Blocking(_) => 7 * tries + 7
  }

  /** Every step of a worker brings its call closer to the end; the steps of others do not set it back. */
  lemma EveryStepCounts(s: State, a: Action, w: nat)
    requires AllInOrder(s) && Enabled(s, a) && w < |s.workers| && !a.Begin?
    ensures w < |Apply(s, a).workers|
    ensures StepsLeft(Apply(s, a).workers[w]) <= StepsLeft(s.workers[w])
    ensures !a.CancelContext? && a.w == w ==> StepsLeft(Apply(s, a).workers[w]) < StepsLeft(s.workers[w])
  {
    Frame(s, a);
    if !a.CancelContext? && a.w == w {
      assert InOrder(s.workers[w], s.clock, s.blocked);
    }
  }

  predicate Busy(pc: Worker) {
    !pc.Idle? && !pc.Finished?
  }

  /** While any call is under way some call can move: the worker that holds the gate, if there is one. */
  function SomeStep(s: State, w: nat): (a: Action)
    requires Exclusive(s) && AllInOrder(s) && w < |s.workers| && Busy(s.workers[w])
    ensures Enabled(s, a) && !a.CancelContext? && !a.Begin?
  {
    if s.holder.Some? && (s.workers[w].AtGate? || s.workers[w].Blocking? || s.workers[w].Observing?) then
      StepOf(s, s.holder.value)
    else
      assert InOrder(s.workers[w], s.clock, s.blocked);
      StepOf(s, w)
  }

  function StepOf(s: State, w: nat): Action
    requires w < |s.workers|
  {
    match s.workers[w]
    case AtGate(_) => Lock(w)
    case Held(_) => Look(w, s.clock)
    case Sleeping(_, until) => Wake(w, if until > s.clock then until else s.clock)
    case Passed(_) => SendRequest(w, true)
    case InFlight(_) => Respond(w, s.clock, NoReply)
    case _ => Record(w)
  }
}
