/**
 The worker pool of one page of discovery: workers fetch candidates and put the results on a bounded
 FIFO channel; a worker that meets an error sends it, then cancels the others and stops; the
 collector hands candidates to the consumer until something has failed. Every interleaving is a
 sequence of actions; what the network and the consumer do is the payload of an action.
 */
module FetchPool {
  import opened Catalog
  import opened Identity
  import opened Folder

  /** Who cancelled the context the workers see. */
  datatype Cause = Caller | Peer | Consumer

  /** A fetched item; `blame` is who had cancelled the context when the fetch was cut short by it. */
  datatype Result = Result(job: nat, fetched: Fetched, blame: Option<Cause>)

  datatype Worker =
    | Top
    | Took(job: nat)
    | Fetching(job: nat)
    | Sending(result: Result)
    | Failing
    | Exited

  /** What the collector returns: a failed fetch, the consumer's refusal, or the caller's cancellation. */
  datatype Fault = FetchFailed(result: Result) | Refused(result: Result) | CallerCancelled

  datatype Phase = Collecting | Returned(fault: Option<Fault>)

  /** `seen`, `yielded` and `dropped` record history: results in the order received, results handed to
      the consumer, and jobs abandoned after a cancellation. */
  datatype State = State(
    next: nat, workers: seq<Worker>, queue: seq<Result>, closed: bool,
    callerDone: bool, cancelled: Option<Cause>,
    seen: seq<Result>, yielded: seq<Result>, dropped: seq<nat>,
    candidates: nat, starsSkipped: nat, contentFailures: nat, fault: Option<Fault>, phase: Phase)

  datatype Page = Page(settings: Settings, items: seq<Item>, width: nat)

  datatype Action =
    | Take(w: nat)
    | CheckContext(w: nat)
    | FetchReturns(w: nat, fetched: Fetched)
    | Send(w: nat)
    | CancelPeers(w: nat)
    | CloseResults
    | Receive(accepted: bool)
    | Return
    | CallerCancels

  function Init(p: Page): State {
    State(0, seq(p.width, _ => Top), [], false, false, None, [], [], [], 0, 0, 0, None, Collecting)
  }

  /** A fetch keeps the promises of FetchCandidate: in particular it is aborted only by exhausted rate
      limits or because its context is cancelled. */
  predicate MayReturn(p: Page, s: State, j: nat, fetched: Fetched) {
    && j < |p.items| && AsPromised(p.settings, p.items[j], fetched)
    && (fetched.Aborted? ==> fetched.fault.RateLimited? || s.cancelled.Some?)
  }

  function ResultOf(s: State, j: nat, fetched: Fetched): Result {
    Result(j, fetched, if fetched == Aborted(OtherFault) then s.cancelled else None)
  }

  predicate Enabled(p: Page, s: State, a: Action) {
    && s.phase.Collecting?
    && match a
       case Take(w) => w < |s.workers| && s.workers[w].Top?
       case CheckContext(w) => w < |s.workers| && s.workers[w].Took?
       case FetchReturns(w, fetched) =>
         w < |s.workers| && s.workers[w].Fetching? && MayReturn(p, s, s.workers[w].job, fetched)
       case Send(w) => w < |s.workers| && s.workers[w].Sending? && |s.queue| < p.width
       case CancelPeers(w) => w < |s.workers| && s.workers[w].Failing?
       case CloseResults => !s.closed && forall w | 0 <= w < |s.workers| :: s.workers[w].Exited?
       case Receive(_) => s.queue != []
       case Return => s.queue == [] && s.closed
       case CallerCancels => !s.callerDone
  }

  function Move(s: State, w: nat, pc: Worker): State
    requires w < |s.workers|
  {
    s.(workers := s.workers[w := pc])
  }

  function CancelBy(s: State, cause: Cause): State {
    s.(cancelled := if s.cancelled.None? then Some(cause) else s.cancelled)
  }

  function ReceiveOne(s: State, accepted: bool): State
    requires s.queue != []
  {
    var r := s.queue[0];
    var s' := s.(queue := s.queue[1..], seen := s.seen + [r]);
    match r.fetched
    case StarsSkipped => s'.(starsSkipped := s.starsSkipped + 1)
    case ContentFailed => s'.(contentFailures := s.contentFailures + 1)
    case Aborted(_) => if s.fault.None? then s'.(fault := Some(FetchFailed(r))) else s'
    case Found(_) =>
      if s.fault.Some? then s'
      else if accepted then s'.(yielded := s.yielded + [r], candidates := s.candidates + 1)
      else CancelBy(s'.(yielded := s.yielded + [r], fault := Some(Refused(r))), Consumer)
  }

  function Apply(p: Page, s: State, a: Action): State
    requires Enabled(p, s, a)
  {
    match a
    case Take(w) =>
      if s.next < |p.items| then Move(s, w, Took(s.next)).(next := s.next + 1) else Move(s, w, Exited)
    case CheckContext(w) =>
      var j := s.workers[w].job;
      if s.cancelled.Some? then Move(s, w, Exited).(dropped := s.dropped + [j]) else Move(s, w, Fetching(j))
    case FetchReturns(w, fetched) => Move(s, w, Sending(ResultOf(s, s.workers[w].job, fetched)))
    case Send(w) =>
      var r := s.workers[w].result;
      Move(s, w, if r.fetched.Aborted? then Failing else Top).(queue := s.queue + [r])
    case CancelPeers(w) => CancelBy(Move(s, w, Exited), Peer)
    case CloseResults => s.(closed := true)
    case Receive(accepted) => ReceiveOne(s, accepted)
    case Return =>
      s.(phase := Returned(if s.fault.Some? then s.fault else if s.callerDone then Some(CallerCancelled) else None))
    case CallerCancels => CancelBy(s.(callerDone := true), Caller)
  }

  predicate Follows(p: Page, s: State, actions: seq<Action>)
    decreases |actions|
  {
    actions == [] || (Enabled(p, s, actions[0]) && Follows(p, Apply(p, s, actions[0]), actions[1..]))
  }

  function Final(p: Page, s: State, actions: seq<Action>): State
    requires Follows(p, s, actions)
    decreases |actions|
  {
    if actions == [] then s else Final(p, Apply(p, s, actions[0]), actions[1..])
  }

  // --- Conservation of jobs ---------------------------------------------------------------------------

  function InHand(pc: Worker): multiset<nat> {
    match pc
    case Took(j) => multiset{j}
    case Fetching(j) => multiset{j}
    case Sending(r) => multiset{r.job}
    case _ => multiset{}
  }

  function Hands(ws: seq<Worker>): multiset<nat> {
    if ws == [] then multiset{} else InHand(ws[0]) + Hands(ws[1..])
  }

  function Jobs(rs: seq<Result>): multiset<nat> {
    if rs == [] then multiset{} else Jobs(rs[..|rs| - 1]) + multiset{rs[|rs| - 1].job}
  }

  /** The first `n` jobs, once each. */
  function Range(n: nat): multiset<nat> {
    if n == 0 then multiset{} else Range(n - 1) + multiset{n - 1}
  }

  lemma {:induction false} RangeIs(n: nat, j: nat)
    ensures |Range(n)| == n && Range(n)[j] == if j < n then 1 else 0
  {
    if n > 0 {
      RangeIs(n - 1, j);
    }
  }

  lemma {:induction false} HandsUpdate(ws: seq<Worker>, w: nat, pc: Worker, j: nat)
    requires w < |ws|
    ensures Hands(ws[w := pc])[j] + InHand(ws[w])[j] == Hands(ws)[j] + InHand(pc)[j]
  {
    if w > 0 {
      HandsUpdate(ws[1..], w - 1, pc, j);
      assert ws[w := pc][1..] == ws[1..][w - 1 := pc];
    } else {
      assert ws[w := pc][1..] == ws[1..];
    }
  }

  lemma {:induction false} NothingInHand(ws: seq<Worker>)
    requires forall w | 0 <= w < |ws| :: InHand(ws[w]) == multiset{}
    ensures Hands(ws) == multiset{}
  {
    if ws != [] {
      NothingInHand(ws[1..]);
    }
  }

  lemma {:induction false} JobsFromFront(q: seq<Result>)
    requires q != []
    ensures Jobs(q) == multiset{q[0].job} + Jobs(q[1..])
  {
    if |q| == 1 {
      assert q[..0] == [] && q[1..] == [];
    } else {
      var front, rest, middle, last := q[..|q| - 1], q[1..], q[1..|q| - 1], q[|q| - 1];
      assert front[1..] == middle;
      JobsFromFront(front);
      assert rest == middle + [last];
      JobsAppend(middle, last);
    }
  }

  lemma JobsAppend(rs: seq<Result>, r: Result)
    ensures Jobs(rs + [r]) == Jobs(rs) + multiset{r.job}
  {
    assert (rs + [r])[..|rs|] == rs;
  }

  lemma {:induction false} JobsSize(rs: seq<Result>)
    ensures |Jobs(rs)| == |rs|
  {
    if rs != [] {
      JobsSize(rs[..|rs| - 1]);
    }
  }

  /** Every job taken so far is, exactly once, in a worker's hands, queued, received, or dropped. */
  ghost predicate Accounted(s: State, j: nat) {
    Hands(s.workers)[j] + Jobs(s.queue)[j] + Jobs(s.seen)[j] + multiset(s.dropped)[j] == (if j < s.next then 1 else 0)
  }

  ghost predicate JobsAccounted(s: State) {
    forall j: nat :: Accounted(s, j)
  }

  predicate Moves(a: Action) {
    !a.CloseResults? && !a.Receive? && !a.Return? && !a.CallerCancels?
  }

  /** A step of a worker touches its own program counter only. */
  lemma OneMoves(p: Page, s: State, a: Action)
    requires Enabled(p, s, a) && Moves(a)
    ensures var t := Apply(p, s, a);
      && a.w < |s.workers| && t.workers == s.workers[a.w := t.workers[a.w]]
      && t.closed == s.closed && t.phase == s.phase && t.callerDone == s.callerDone
      && t.seen == s.seen && t.fault == s.fault && t.yielded == s.yielded
      && (a.CancelPeers? || t.cancelled == s.cancelled)
      && (s.cancelled.Some? ==> t.cancelled == s.cancelled)
  {
  }

  lemma QueueFrame(p: Page, s: State, a: Action)
    requires Enabled(p, s, a) && Moves(a)
    ensures var t := Apply(p, s, a);
      && a.w < |s.workers|
      && (a.Send? ==> s.workers[a.w].Sending? && t.queue == s.queue + [s.workers[a.w].result])
      && (!a.Send? ==> t.queue == s.queue)
      && (!a.Take? ==> t.next == s.next)
      && (!a.CheckContext? ==> t.dropped == s.dropped)
  {
  }

  lemma KeepsJob(p: Page, s: State, a: Action)
    requires Enabled(p, s, a) && (a.FetchReturns? || a.CancelPeers?)
    ensures var t := Apply(p, s, a);
      a.w < |s.workers| && a.w < |t.workers| && InHand(t.workers[a.w]) == InHand(s.workers[a.w])
  {
  }

  lemma TakesOne(p: Page, s: State, w: nat, j: nat)
    requires Enabled(p, s, Take(w))
    ensures var t := Apply(p, s, Take(w));
      && w < |s.workers| && w < |t.workers| && InHand(s.workers[w])[j] == 0
      && InHand(t.workers[w])[j] + (if j < s.next then 1 else 0) == (if j < t.next then 1 else 0)
  {
  }

  lemma ChecksOne(p: Page, s: State, w: nat, j: nat)
    requires Enabled(p, s, CheckContext(w))
    ensures var t := Apply(p, s, CheckContext(w));
      && w < |s.workers| && w < |t.workers|
      && InHand(t.workers[w])[j] + multiset(t.dropped)[j] == InHand(s.workers[w])[j] + multiset(s.dropped)[j]
  {
  }

  lemma SendsOne(p: Page, s: State, w: nat, j: nat)
    requires Enabled(p, s, Send(w))
    ensures var t := Apply(p, s, Send(w));
      && w < |s.workers| && w < |t.workers| && s.workers[w].Sending?
      && InHand(t.workers[w])[j] == 0 && InHand(s.workers[w])[j] == (if s.workers[w].result.job == j then 1 else 0)
  {
  }

  lemma QueuedOne(q: seq<Result>, q': seq<Result>, r: Result, j: nat)
    requires q' == q + [r]
    ensures Jobs(q')[j] == Jobs(q)[j] + (if r.job == j then 1 else 0)
  {
    JobsAppend(q, r);
  }

  /** One step of a worker hands job `j` over without losing or doubling it. */
  lemma OneHandsOver(p: Page, s: State, a: Action, j: nat)
    requires Enabled(p, s, a) && Moves(a)
    ensures var t := Apply(p, s, a);
      && a.w < |s.workers| && a.w < |t.workers|
      && InHand(t.workers[a.w])[j] + Jobs(t.queue)[j] + multiset(t.dropped)[j] + (if j < s.next then 1 else 0)
      == InHand(s.workers[a.w])[j] + Jobs(s.queue)[j] + multiset(s.dropped)[j] + (if j < t.next then 1 else 0)
  {
    QueueFrame(p, s, a);
    match a {
      case Take(w) => TakesOne(p, s, w, j);
      case CheckContext(w) => ChecksOne(p, s, w, j);
      case Send(w) =>
        SendsOne(p, s, w, j);
        QueuedOne(s.queue, Apply(p, s, a).queue, s.workers[w].result, j);
      case _ => KeepsJob(p, s, a);
    }
  }

  lemma CollectorFrame(p: Page, s: State, a: Action)
    requires Enabled(p, s, a) && !Moves(a)
    ensures var t := Apply(p, s, a);
      && t.workers == s.workers && t.next == s.next && t.dropped == s.dropped
      && (a.Receive? ==> s.queue != [] && t.seen == s.seen + [s.queue[0]] && t.queue == s.queue[1..])
      && (!a.Receive? ==> t.seen == s.seen && t.queue == s.queue && t.fault == s.fault && t.yielded == s.yielded)
      && (s.cancelled.Some? ==> t.cancelled == s.cancelled)
      && (s.fault.Some? ==> t.fault == s.fault)
  {
  }

  lemma JobsAccountedKept(p: Page, s: State, a: Action)
    requires JobsAccounted(s) && Enabled(p, s, a)
    ensures JobsAccounted(Apply(p, s, a))
  {
    var t := Apply(p, s, a);
    forall j: nat
      ensures Accounted(t, j)
    {
      assert Accounted(s, j);
      if Moves(a) {
        OneMoves(p, s, a);
        OneHandsOver(p, s, a, j);
        HandsUpdate(s.workers, a.w, t.workers[a.w], j);
      } else {
        CollectorFrame(p, s, a);
        if a.Receive? {
          JobsFromFront(s.queue);
          JobsAppend(s.seen, s.queue[0]);
        }
      }
    }
  }
}
