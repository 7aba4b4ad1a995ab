/** What a page of discovery can rely on, under every schedule: it ends, it accounts for every item, its
    error is never one it caused itself, and nothing is yielded after an error. */
module FetchPoolOutcome {
  import opened Catalog
  import opened Folder
  import opened FetchPool
  import opened Sequences

  // --- Progress ---------------------------------------------------------------------------------------

  predicate Shape(p: Page, s: State) {
    && |s.workers| == p.width && s.next <= |p.items|
    && (forall w | 0 <= w < |s.workers| && (s.workers[w].Took? || s.workers[w].Fetching?) :: s.workers[w].job < s.next)
    && (s.closed ==> forall w | 0 <= w < |s.workers| :: s.workers[w].Exited?)
  }

  lemma NextGrows(p: Page, s: State, a: Action)
    requires Enabled(p, s, a)
    ensures s.next <= Apply(p, s, a).next && (s.next <= |p.items| ==> Apply(p, s, a).next <= |p.items|)
    ensures Moves(a) ==>
      var pc := Apply(p, s, a).workers[a.w];
      && (pc.Took? ==> pc.job < Apply(p, s, a).next)
      && (pc.Fetching? ==> s.workers[a.w].Took? && pc.job == s.workers[a.w].job)
    ensures a.CloseResults? || a.Return? || Apply(p, s, a).closed == s.closed
  {
  }

  lemma ShapeKept(p: Page, s: State, a: Action)
    requires Shape(p, s) && Enabled(p, s, a)
    ensures Shape(p, Apply(p, s, a))
  {
    NextGrows(p, s, a);
    if Moves(a) {
      OneMoves(p, s, a);
    } else {
      CollectorFrame(p, s, a);
    }
  }

  function Rank(pc: Worker): nat {
    match pc
    case Exited => 0
    case Top => 1
    case Failing => 1
    case Sending(_) => 3
    case Fetching(_) => 4
    case Took(_) => 5
  }

  /** An upper bound on the number of steps that are left. */
  function Left(p: Page, s: State): int {
    5 * (|p.items| - s.next) + Sum(Rank, s.workers) + |s.queue| + (if s.closed then 0 else 1)
    + (if s.phase.Returned? then 0 else 1) + (if s.callerDone then 0 else 1)
  }

  lemma OneUses(p: Page, s: State, a: Action)
    requires Enabled(p, s, a) && Moves(a)
    ensures var t := Apply(p, s, a);
      && a.w < |s.workers| && a.w < |t.workers|
      && Rank(t.workers[a.w]) + |t.queue| - 5 * t.next < Rank(s.workers[a.w]) + |s.queue| - 5 * s.next
  {
  }

  lemma CollectorUses(p: Page, s: State, a: Action)
    requires Enabled(p, s, a) && !Moves(a)
    ensures Left(p, Apply(p, s, a)) < Left(p, s)
  {
  }

  /** Every step uses up at least one unit of the bound, whoever moves. */
  lemma EveryStepCounts(p: Page, s: State, a: Action)
    requires Enabled(p, s, a)
    ensures Left(p, Apply(p, s, a)) < Left(p, s)
  {
    if Moves(a) {
      OneMoves(p, s, a);
      OneUses(p, s, a);
      SumUpdate(Rank, s.workers, a.w, Apply(p, s, a).workers[a.w]);
    } else {
      CollectorUses(p, s, a);
    }
  }

  predicate Running(pc: Worker) {
    !pc.Exited?
  }

  function StepOf(s: State, w: nat): Action
    requires w < |s.workers|
  {
    match s.workers[w]
    case Top => Take(w)
    case Took(_) => CheckContext(w)
    case Fetching(_) => FetchReturns(w, ContentFailed)
    case Sending(_) => Send(w)
    case Failing => CancelPeers(w)
    case Exited => Return
  }

  /** No reachable state is stuck before the page has returned: here is a step. */
  function SomeStep(p: Page, s: State): (a: Action)
    requires Shape(p, s) && s.phase.Collecting? && p.width >= 1
    ensures Enabled(p, s, a)
  {
    var w := FirstWhere(Running, s.workers);
    if s.queue != [] then Receive(true)
    else if w == |s.workers| then (if s.closed then Return else CloseResults)
    else StepOf(s, w)
  }

  // --- Where errors come from ------------------------------------------------------------------------

  predicate Aborts(r: Result) {
    r.fetched.Aborted?
  }

  /** A result in the pool: about one of the items, as promised, blaming only the cancellation that
      happened. */
  ghost predicate Genuine(p: Page, cancelled: Option<Cause>, r: Result) {
    && r.job < |p.items| && AsPromised(p.settings, p.items[r.job], r.fetched)
    && (r.blame.Some? ==> r.blame == cancelled)
    && (Aborts(r) ==> r.fetched.fault.RateLimited? || r.blame.Some?)
  }

  ghost predicate AllGenuine(p: Page, s: State) {
    && (forall w | 0 <= w < |s.workers| && s.workers[w].Sending? :: Genuine(p, s.cancelled, s.workers[w].result))
    && (forall r | r in s.queue :: Genuine(p, s.cancelled, r))
    && (forall r | r in s.seen :: Genuine(p, s.cancelled, r))
  }

  /** Everything sent so far, in the order of the channel. */
  function Sent(s: State): seq<Result> {
    s.seen + s.queue
  }

  ghost predicate AbortBefore(rs: seq<Result>, i: nat)
    requires i <= |rs|
  {
    exists j | 0 <= j < i :: Aborts(rs[j])
  }

  /** A worker cancels after its error is in the channel, so the first error there is nobody's echo. */
  ghost predicate FirstErrorIsOriginal(s: State) {
    && (forall i | 0 <= i < |Sent(s)| && Aborts(Sent(s)[i]) && Sent(s)[i].blame == Some(Peer) ::
        AbortBefore(Sent(s), i))
    && (s.cancelled == Some(Peer) ==> AbortBefore(Sent(s), |Sent(s)|))
    && (forall w | 0 <= w < |s.workers| && s.workers[w].Failing? :: AbortBefore(Sent(s), |Sent(s)|))
  }

  ghost predicate FaultExplained(s: State) {
    && (s.fault.None? ==> (forall i | 0 <= i < |s.seen| :: !Aborts(s.seen[i])) && s.cancelled != Some(Consumer))
    && (s.cancelled == Some(Caller) ==> s.callerDone)
    && (s.callerDone ==> s.cancelled.Some?)
    && (match s.fault
        case Some(FetchFailed(r)) =>
          && r in s.seen && Aborts(r) && (r.fetched.fault.RateLimited? || r.blame.Some?)
          && r.blame != Some(Peer) && r.blame != Some(Consumer)
        case Some(Refused(r)) => r in s.seen && r in s.yielded && r.fetched.Found?
        case Some(CallerCancelled) => false
        case None => true)
  }

  ghost predicate Diligent(p: Page, s: State) {
    && (s.dropped != [] ==> s.cancelled.Some?)
    && (forall w | 0 <= w < |s.workers| && s.workers[w].Exited? :: s.next == |p.items| || s.cancelled.Some?)
  }

  lemma GenuineLater(p: Page, s: State, a: Action, r: Result)
    requires Enabled(p, s, a) && Genuine(p, s.cancelled, r)
    ensures Genuine(p, Apply(p, s, a).cancelled, r)
  {
    if Moves(a) {
      OneMoves(p, s, a);
    } else {
      CollectorFrame(p, s, a);
    }
  }

  lemma NewResultGenuine(p: Page, s: State, w: nat, fetched: Fetched)
    requires Enabled(p, s, FetchReturns(w, fetched))
    ensures var t := Apply(p, s, FetchReturns(w, fetched));
      w < |t.workers| && t.workers[w].Sending? && Genuine(p, s.cancelled, t.workers[w].result)
  {
  }

  lemma SendingComesFrom(p: Page, s: State, a: Action)
    requires Enabled(p, s, a) && Moves(a) && !a.FetchReturns?
    ensures a.w < |Apply(p, s, a).workers| && !Apply(p, s, a).workers[a.w].Sending?
  {
  }

  lemma GenuineKept(p: Page, s: State, a: Action)
    requires AllGenuine(p, s) && Enabled(p, s, a)
    ensures AllGenuine(p, Apply(p, s, a))
  {
    var t := Apply(p, s, a);
    forall r | Genuine(p, s.cancelled, r)
      ensures Genuine(p, t.cancelled, r)
    {
      GenuineLater(p, s, a, r);
    }
    if Moves(a) {
      OneMoves(p, s, a);
      QueueFrame(p, s, a);
      if a.FetchReturns? {
        NewResultGenuine(p, s, a.w, a.fetched);
      } else {
        SendingComesFrom(p, s, a);
      }
    } else {
      CollectorFrame(p, s, a);
    }
  }

  lemma AbortBeforeLonger(rs: seq<Result>, more: seq<Result>, i: nat)
    requires i <= |rs| && AbortBefore(rs, i)
    ensures AbortBefore(rs + more, i)
    ensures AbortBefore(rs + more, |rs + more|)
  {
    var j :| 0 <= j < i && Aborts(rs[j]);
    assert (rs + more)[j] == rs[j];
  }

  /** What is sent only grows, by the result a worker sends. */
  lemma SentFrame(p: Page, s: State, a: Action)
    requires Enabled(p, s, a)
    ensures a.Send? ==>
      a.w < |s.workers| && s.workers[a.w].Sending? && Sent(Apply(p, s, a)) == Sent(s) + [s.workers[a.w].result]
    ensures !a.Send? ==> Sent(Apply(p, s, a)) == Sent(s)
  {
    if Moves(a) {
      OneMoves(p, s, a);
      QueueFrame(p, s, a);
    } else {
      CollectorFrame(p, s, a);
    }
  }

  lemma FailingComesFrom(p: Page, s: State, a: Action)
    requires Enabled(p, s, a) && Moves(a)
    ensures a.w < |s.workers| && a.w < |Apply(p, s, a).workers|
    ensures Apply(p, s, a).workers[a.w].Failing? ==> a.Send? && s.workers[a.w].Sending? && Aborts(s.workers[a.w].result)
    ensures a.CancelPeers? ==> s.workers[a.w].Failing?
  {
  }

  lemma CancelledBy(p: Page, s: State, a: Action)
    requires Enabled(p, s, a) && Apply(p, s, a).cancelled == Some(Peer)
    ensures s.cancelled == Some(Peer) || a.CancelPeers?
  {
  }

  lemma OriginalKept(p: Page, s: State, a: Action)
    requires AllGenuine(p, s) && FirstErrorIsOriginal(s) && Enabled(p, s, a)
    ensures FirstErrorIsOriginal(Apply(p, s, a))
  {
    var t := Apply(p, s, a);
    SentFrame(p, s, a);
    if Moves(a) {
      OneMoves(p, s, a);
      FailingComesFrom(p, s, a);
    } else {
      CollectorFrame(p, s, a);
    }
    if t.cancelled == Some(Peer) {
      CancelledBy(p, s, a);
    }
    if a.Send? {
      SendKeepsOriginal(s, t, s.workers[a.w].result);
    }
  }

  lemma SendKeepsOriginal(s: State, t: State, r: Result)
    requires FirstErrorIsOriginal(s) && Sent(t) == Sent(s) + [r]
    requires r.blame.Some? ==> r.blame == s.cancelled
    requires t.cancelled == s.cancelled
    requires forall w | 0 <= w < |t.workers| && t.workers[w].Failing? ::
      Aborts(r) || (w < |s.workers| && s.workers[w].Failing?)
    ensures FirstErrorIsOriginal(t)
  {
    var before, after := Sent(s), Sent(t);
    assert after[|before|] == r;
    forall i | 0 <= i < |after| && Aborts(after[i]) && after[i].blame == Some(Peer)
      ensures AbortBefore(after, i)
    {
      if i < |before| {
        assert after[i] == before[i];
        AbortBeforeLonger(before, [r], i);
      } else {
        AbortBeforeLonger(before, [r], |before|);
      }
    }
    if AbortBefore(before, |before|) {
      AbortBeforeLonger(before, [r], |before|);
    }
  }

  /** What receiving does to the fault and the yields. */
  lemma ReceiveFrame(p: Page, s: State, accepted: bool)
    requires Enabled(p, s, Receive(accepted))
    ensures var t, r := Apply(p, s, Receive(accepted)), s.queue[0];
      && (s.fault.Some? ==> t.fault == s.fault && t.yielded == s.yielded && t.cancelled == s.cancelled)
      && (s.fault.None? && Aborts(r) ==>
          t.fault == Some(FetchFailed(r)) && t.yielded == s.yielded && t.cancelled == s.cancelled)
      && (s.fault.None? && r.fetched.Found? ==> t.yielded == s.yielded + [r])
      && (s.fault.None? && !r.fetched.Found? ==> t.yielded == s.yielded)
      && (s.fault.None? && r.fetched.Found? && !accepted ==>
            t.fault == Some(Refused(r)) && t.cancelled == (if s.cancelled.None? then Some(Consumer) else s.cancelled))
      && (s.fault.None? && !Aborts(r) && !(r.fetched.Found? && !accepted) ==>
          t.fault.None? && t.cancelled == s.cancelled)
  {
  }

  lemma FirstReceived(s: State)
    requires FirstErrorIsOriginal(s) && s.queue != [] && Aborts(s.queue[0])
    requires forall i | 0 <= i < |s.seen| :: !Aborts(s.seen[i])
    ensures s.queue[0].blame != Some(Peer)
  {
    assert Sent(s)[|s.seen|] == s.queue[0];
    assert forall i | 0 <= i < |s.seen| :: Sent(s)[i] == s.seen[i];
  }

  lemma NobodyFailed(s: State)
    requires FirstErrorIsOriginal(s) && s.queue == []
    requires forall i | 0 <= i < |s.seen| :: !Aborts(s.seen[i])
    ensures s.cancelled != Some(Peer)
  {
    assert Sent(s) == s.seen;
  }

  lemma ReceiveExplained(p: Page, s: State, accepted: bool)
    requires AllGenuine(p, s) && FirstErrorIsOriginal(s) && FaultExplained(s) && Enabled(p, s, Receive(accepted))
    ensures FaultExplained(Apply(p, s, Receive(accepted)))
  {
    var t, r := Apply(p, s, Receive(accepted)), s.queue[0];
    CollectorFrame(p, s, Receive(accepted));
    ReceiveFrame(p, s, accepted);
    assert r in t.seen;
    assert Genuine(p, s.cancelled, r);
    assert forall x | x in s.seen :: x in t.seen;
    if s.fault.None? && Aborts(r) {
      FirstReceived(s);
    }
  }

  lemma ExplainedKept(p: Page, s: State, a: Action)
    requires AllGenuine(p, s) && FirstErrorIsOriginal(s) && FaultExplained(s) && Enabled(p, s, a)
    ensures FaultExplained(Apply(p, s, a))
  {
    if a.Receive? {
      ReceiveExplained(p, s, a.accepted);
    } else if Moves(a) {
      OneMoves(p, s, a);
    } else {
      CollectorFrame(p, s, a);
    }
  }

  lemma DiligentKept(p: Page, s: State, a: Action)
    requires Shape(p, s) && Diligent(p, s) && Enabled(p, s, a)
    ensures Diligent(p, Apply(p, s, a))
  {
    if Moves(a) {
      OneMoves(p, s, a);
      QueueFrame(p, s, a);
    } else {
      CollectorFrame(p, s, a);
    }
  }

  // --- Counting ----------------------------------------------------------------------------------------

  function Skips(rs: seq<Result>): nat {
    if rs == [] then 0 else Skips(rs[..|rs| - 1]) + (if rs[|rs| - 1].fetched.StarsSkipped? then 1 else 0)
  }

  function Unreadable(rs: seq<Result>): nat {
    if rs == [] then 0 else Unreadable(rs[..|rs| - 1]) + (if rs[|rs| - 1].fetched.ContentFailed? then 1 else 0)
  }

  lemma CountsAppend(rs: seq<Result>, r: Result)
    ensures Skips(rs + [r]) == Skips(rs) + (if r.fetched.StarsSkipped? then 1 else 0)
    ensures Unreadable(rs + [r]) == Unreadable(rs) + (if r.fetched.ContentFailed? then 1 else 0)
  {
    assert (rs + [r])[..|rs|] == rs;
  }

  ghost predicate Counted(s: State) {
    && s.starsSkipped == Skips(s.seen) && s.contentFailures == Unreadable(s.seen)
    && s.candidates + s.starsSkipped + s.contentFailures <= |s.seen|
    && s.candidates <= |s.yielded|
    && (s.fault.None? ==>
          s.candidates == |s.yielded| && s.candidates + s.starsSkipped + s.contentFailures == |s.seen|)
  }

  /** What was yielded was received, each result at most as often. */
  ghost predicate YieldsReceived(s: State) {
    && (forall j: nat :: Jobs(s.yielded)[j] <= Jobs(s.seen)[j])
    && (forall r | r in s.yielded :: r in s.seen && r.fetched.Found?)
  }

  lemma CountersFrame(p: Page, s: State, a: Action)
    requires Enabled(p, s, a)
    ensures var t := Apply(p, s, a);
      !a.Receive? ==>
        && t.candidates == s.candidates && t.starsSkipped == s.starsSkipped && t.contentFailures == s.contentFailures
        && t.seen == s.seen && t.yielded == s.yielded && t.fault == s.fault
  {
  }

  lemma ReceiveCounts(p: Page, s: State, accepted: bool)
    requires Enabled(p, s, Receive(accepted))
    ensures var t, r := Apply(p, s, Receive(accepted)), s.queue[0];
      && t.starsSkipped == s.starsSkipped + (if r.fetched.StarsSkipped? then 1 else 0)
      && t.contentFailures == s.contentFailures + (if r.fetched.ContentFailed? then 1 else 0)
      && t.candidates == s.candidates + (if r.fetched.Found? && s.fault.None? && accepted then 1 else 0)
  {
  }

  /** The counters after one more result, whoever the states belong to. */
  lemma CountedOneMore(s: State, t: State, r: Result)
    requires Counted(s) && t.seen == s.seen + [r]
    requires t.starsSkipped == s.starsSkipped + (if r.fetched.StarsSkipped? then 1 else 0)
    requires t.contentFailures == s.contentFailures + (if r.fetched.ContentFailed? then 1 else 0)
    requires t.fault.None? ==> s.fault.None? && !Aborts(r)
    requires t.candidates == s.candidates + (if r.fetched.Found? && t.fault.None? then 1 else 0)
    requires |t.yielded| >= |s.yielded|
      && (t.fault.None? ==> |t.yielded| == |s.yielded| + (if r.fetched.Found? then 1 else 0))
    ensures Counted(t)
  {
    CountsAppend(s.seen, r);
  }

  lemma CountedKept(p: Page, s: State, a: Action)
    requires Counted(s) && Enabled(p, s, a)
    ensures Counted(Apply(p, s, a))
  {
    if a.Receive? {
      ReceiveCounts(p, s, a.accepted);
      ReceiveFrame(p, s, a.accepted);
      CollectorFrame(p, s, a);
      CountedOneMore(s, Apply(p, s, a), s.queue[0]);
    } else {
      CountersFrame(p, s, a);
    }
  }

  lemma YieldsKept(p: Page, s: State, a: Action)
    requires YieldsReceived(s) && Enabled(p, s, a)
    ensures YieldsReceived(Apply(p, s, a))
  {
    if a.Receive? {
      ReceiveFrame(p, s, a.accepted);
      CollectorFrame(p, s, a);
      var t := Apply(p, s, a);
      YieldedOne(s.seen, s.yielded, s.queue[0], t.seen, t.yielded);
    } else {
      CountersFrame(p, s, a);
    }
  }

  lemma YieldedOne(seen: seq<Result>, yielded: seq<Result>, r: Result, seen': seq<Result>, yielded': seq<Result>)
    requires forall j: nat :: Jobs(yielded)[j] <= Jobs(seen)[j]
    requires seen' == seen + [r] && (yielded' == yielded || yielded' == yielded + [r])
    ensures forall j: nat :: Jobs(yielded')[j] <= Jobs(seen')[j]
  {
    JobsAppend(seen, r);
    JobsAppend(yielded, r);
  }

  // --- The return ----------------------------------------------------------------------------------------

  ghost predicate Closing(s: State) {
    s.phase.Returned? ==>
      && s.closed && s.queue == []
      && s.phase.fault == (if s.fault.Some? then s.fault else if s.callerDone then Some(CallerCancelled) else None)
  }

  ghost predicate Inv(p: Page, s: State) {
    && Shape(p, s) && JobsAccounted(s) && AllGenuine(p, s) && FirstErrorIsOriginal(s) && FaultExplained(s)
    && Diligent(p, s) && Counted(s) && YieldsReceived(s) && Closing(s)
  }

  lemma ClosingKept(p: Page, s: State, a: Action)
    requires Enabled(p, s, a)
    ensures Closing(Apply(p, s, a))
  {
  }

  lemma InvInit(p: Page)
    ensures Inv(p, Init(p))
  {
    NothingInHand(Init(p).workers);
  }

  lemma InvStep(p: Page, s: State, a: Action)
    requires Inv(p, s) && Enabled(p, s, a)
    ensures Inv(p, Apply(p, s, a))
  {
    ShapeKept(p, s, a);
    JobsAccountedKept(p, s, a);
    GenuineKept(p, s, a);
    OriginalKept(p, s, a);
    ExplainedKept(p, s, a);
    DiligentKept(p, s, a);
    CountedKept(p, s, a);
    YieldsKept(p, s, a);
    ClosingKept(p, s, a);
  }

  lemma {:induction false} InvAlways(p: Page, s: State, actions: seq<Action>)
    requires Inv(p, s) && Follows(p, s, actions)
    ensures Inv(p, Final(p, s, actions))
    ensures |actions| + Left(p, Final(p, s, actions)) <= Left(p, s)
    decreases |actions|
  {
    if actions != [] {
      InvStep(p, s, actions[0]);
      EveryStepCounts(p, s, actions[0]);
      InvAlways(p, Apply(p, s, actions[0]), actions[1..]);
    }
  }

  lemma {:induction false} FollowsAppend(p: Page, s: State, actions: seq<Action>, a: Action)
    requires Follows(p, s, actions) && Enabled(p, Final(p, s, actions), a)
    ensures Follows(p, s, actions + [a])
    ensures Final(p, s, actions + [a]) == Apply(p, Final(p, s, actions), a)
    decreases |actions|
  {
    if actions == [] {
      assert ([] + [a])[1..] == [];
      assert Final(p, Apply(p, s, a), []) == Apply(p, s, a);
    } else {
      FollowsAppend(p, Apply(p, s, actions[0]), actions[1..], a);
      assert (actions + [a])[1..] == actions[1..] + [a];
    }
  }

  /** Any schedule, however the network and the consumer behave, is at most this long; one that cannot
      be extended has returned from the page. */
  lemma PoolTerminates(p: Page, actions: seq<Action>)
    requires p.width >= 1 && Follows(p, Init(p), actions)
    ensures |actions| <= 5 * |p.items| + p.width + 3
    ensures Final(p, Init(p), actions).phase.Returned?
        || exists a :: Follows(p, Init(p), actions + [a])
  {
    InvInit(p);
    InvAlways(p, Init(p), actions);
    SumAlike(Rank, Init(p).workers, 1);
    var t := Final(p, Init(p), actions);
    assert Shape(p, t);
    if t.phase.Collecting? {
      FollowsAppend(p, Init(p), actions, SomeStep(p, t));
    }
  }

  /** The error of a page is the consumer's refusal, exhausted rate limits, or due to the caller's
      cancellation; never due to a cancellation by the pool itself. */
  lemma RootCause(p: Page, actions: seq<Action>)
    requires Follows(p, Init(p), actions) && Final(p, Init(p), actions).phase.Returned?
    ensures var t := Final(p, Init(p), actions);
      match t.phase.fault
      case None => true
      case Some(CallerCancelled) => t.callerDone
      case Some(Refused(r)) => r.fetched.Found? && r in t.yielded
      case Some(FetchFailed(r)) => r.fetched == Aborted(RateLimited) || (r.blame == Some(Caller) && t.callerDone)
  {
    InvInit(p);
    InvAlways(p, Init(p), actions);
    var t := Final(p, Init(p), actions);
    if t.fault.Some? && t.fault.value.FetchFailed? {
      assert Genuine(p, t.cancelled, t.fault.value.result);
      assert FaultExplained(t);
      if t.fault.value.result.blame.Some? {
        OnlyCaller(t.fault.value.result.blame);
      }
    }
  }

  lemma OnlyCaller(blame: Option<Cause>)
    requires blame.Some? && blame != Some(Peer) && blame != Some(Consumer)
    ensures blame == Some(Caller)
  {
    match blame.value {
      case Caller =>
      case Peer =>
      case Consumer =>
    }
  }

  /** Once an error is recorded it stays, and nothing is yielded any more. */
  lemma {:induction false} NoYieldAfterError(p: Page, s: State, actions: seq<Action>)
    requires Follows(p, s, actions) && s.fault.Some?
    ensures Final(p, s, actions).yielded == s.yielded && Final(p, s, actions).fault == s.fault
    decreases |actions|
  {
    if actions != [] {
      var a := actions[0];
      if a.Receive? {
        ReceiveFrame(p, s, a.accepted);
      } else {
        CountersFrame(p, s, a);
      }
      NoYieldAfterError(p, Apply(p, s, a), actions[1..]);
    }
  }

  lemma {:induction false} JobsIndex(rs: seq<Result>, i: nat, k: nat)
    requires i < k < |rs| && rs[i].job == rs[k].job
    ensures Jobs(rs)[rs[i].job] >= 2
    decreases |rs|
  {
    var n := |rs| - 1;
    if k < n {
      JobsIndex(rs[..n], i, k);
    } else {
      JobsHas(rs[..n], i);
    }
  }

  lemma {:induction false} JobsHas(rs: seq<Result>, i: nat)
    requires i < |rs|
    ensures Jobs(rs)[rs[i].job] >= 1
    decreases |rs|
  {
    if i < |rs| - 1 {
      JobsHas(rs[..|rs| - 1], i);
    }
  }

  lemma YieldedOnce(s: State, i: nat, k: nat)
    requires JobsAccounted(s) && YieldsReceived(s) && i < k < |s.yielded|
    ensures s.yielded[i].job != s.yielded[k].job
  {
    var j := s.yielded[i].job;
    assert Accounted(s, j);
    assert Jobs(s.yielded)[j] <= 1;
    if s.yielded[k].job == j {
      JobsIndex(s.yielded, i, k);
    }
  }

  lemma YieldedAsPromised(p: Page, s: State, r: Result)
    requires AllGenuine(p, s) && YieldsReceived(s) && r in s.yielded
    ensures r.fetched.Found? && r.job < |p.items| && AsPromised(p.settings, p.items[r.job], r.fetched)
  {
    assert Genuine(p, s.cancelled, r);
  }

  /** What the consumer has been handed, in any run: candidates of different items, each as promised. */
  lemma YieldsAreDistinct(p: Page, actions: seq<Action>)
    requires Follows(p, Init(p), actions)
    ensures var t := Final(p, Init(p), actions);
      && (forall r | r in t.yielded ::
            r.fetched.Found? && r.job < |p.items| && AsPromised(p.settings, p.items[r.job], r.fetched))
      && (forall i, k | 0 <= i < k < |t.yielded| :: t.yielded[i].job != t.yielded[k].job)
  {
    InvInit(p);
    InvAlways(p, Init(p), actions);
    var t := Final(p, Init(p), actions);
    forall r | r in t.yielded
      ensures r.fetched.Found? && r.job < |p.items| && AsPromised(p.settings, p.items[r.job], r.fetched)
    {
      YieldedAsPromised(p, t, r);
    }
    forall i, k | 0 <= i < k < |t.yielded|
      ensures t.yielded[i].job != t.yielded[k].job
    {
      YieldedOnce(t, i, k);
    }
  }

  lemma NothingDropped(p: Page, t: State)
    requires Inv(p, t) && t.phase == Returned(None) && p.width >= 1
    ensures t.dropped == [] && t.next == |p.items| && t.fault.None?
  {
    assert t.fault.None? && !t.callerDone;
    NobodyFailed(t);
    if t.cancelled.Some? {
      OnlyCaller(t.cancelled);
    }
    assert t.cancelled.None?;
    assert t.workers[0].Exited?;
  }

  lemma EveryJobSeen(p: Page, t: State, j: nat)
    requires Inv(p, t) && t.phase == Returned(None) && p.width >= 1
    ensures Jobs(t.seen)[j] == if j < |p.items| then 1 else 0
  {
    NothingDropped(p, t);
    NothingInHand(t.workers);
    assert Accounted(t, j);
  }

  lemma SeenSize(rs: seq<Result>, n: nat)
    requires forall j: nat :: Jobs(rs)[j] == if j < n then 1 else 0
    ensures |rs| == n
  {
    forall j: nat
      ensures Jobs(rs)[j] == Range(n)[j]
    {
      RangeIs(n, j);
    }
    assert Jobs(rs) == Range(n);
    RangeIs(n, 0);
    JobsSize(rs);
  }

  /** Conservation: a page that returns without error received every item exactly once, handed every
      candidate to the consumer, and the counters add up to the number of items. */
  lemma PageReturns(p: Page, actions: seq<Action>)
    requires p.width >= 1 && Follows(p, Init(p), actions)
    requires Final(p, Init(p), actions).phase == Returned(None)
    ensures var t := Final(p, Init(p), actions);
      && |t.seen| == |p.items| && (forall j: nat :: Jobs(t.seen)[j] == if j < |p.items| then 1 else 0)
      && (forall i | 0 <= i < |t.seen| :: !Aborts(t.seen[i]))
      && t.starsSkipped == Skips(t.seen) && t.contentFailures == Unreadable(t.seen)
      && t.candidates == |t.yielded|
      && t.candidates + t.starsSkipped + t.contentFailures == |p.items|
  {
    InvInit(p);
    InvAlways(p, Init(p), actions);
    var t := Final(p, Init(p), actions);
    NothingDropped(p, t);
    forall j: nat
      ensures Jobs(t.seen)[j] == if j < |p.items| then 1 else 0
    {
      EveryJobSeen(p, t, j);
    }
    SeenSize(t.seen, |p.items|);
  }

  // --- Errors and cancellations stop the page -----------------------------------------------------------

  /** A worker is about to cancel the others. */
  ghost predicate Alarmed(s: State) {
    s.cancelled.Some? || exists w | 0 <= w < |s.workers| :: s.workers[w].Failing?
  }

  /** An error that was sent, received or recorded has cancelled the others, or is about to. */
  ghost predicate Heeded(s: State) {
    && ((exists r :: r in Sent(s) && Aborts(r)) ==> Alarmed(s))
    && (s.fault.Some? ==> Alarmed(s))
  }

  lemma AlarmStays(p: Page, s: State, a: Action)
    requires Alarmed(s) && Enabled(p, s, a)
    ensures Alarmed(Apply(p, s, a))
  {
    var t := Apply(p, s, a);
    if Moves(a) {
      OneMoves(p, s, a);
      if s.cancelled.None? && !a.CancelPeers? {
        var w :| 0 <= w < |s.workers| && s.workers[w].Failing?;
        assert w != a.w;
        assert t.workers[w].Failing?;
      }
    } else {
      CollectorFrame(p, s, a);
      if s.cancelled.None? {
        var w :| 0 <= w < |s.workers| && s.workers[w].Failing?;
        assert t.workers[w].Failing?;
      }
    }
  }

  lemma SendingAlarms(p: Page, s: State, w: nat)
    requires Enabled(p, s, Send(w)) && Aborts(s.workers[w].result)
    ensures Alarmed(Apply(p, s, Send(w)))
  {
    var t := Apply(p, s, Send(w));
    assert t.workers[w].Failing?;
  }

  lemma RefusalCancels(p: Page, s: State, a: Action)
    requires Enabled(p, s, a) && s.fault.None? && Apply(p, s, a).fault.Some?
    ensures a.Receive? && (Aborts(s.queue[0]) || Apply(p, s, a).cancelled.Some?)
  {
  }

  lemma HeededKept(p: Page, s: State, a: Action)
    requires Heeded(s) && Enabled(p, s, a)
    ensures Heeded(Apply(p, s, a))
  {
    var t := Apply(p, s, a);
    SentFrame(p, s, a);
    if Alarmed(s) {
      AlarmStays(p, s, a);
    } else {
      if a.Send? && Aborts(s.workers[a.w].result) {
        SendingAlarms(p, s, a.w);
      }
      if t.fault.Some? {
        RefusalCancels(p, s, a);
        assert s.queue[0] in Sent(s);
      }
    }
  }

  lemma {:induction false} HeededAlways(p: Page, s: State, actions: seq<Action>)
    requires Heeded(s) && Follows(p, s, actions)
    ensures Heeded(Final(p, s, actions))
    decreases |actions|
  {
    if actions != [] {
      HeededKept(p, s, actions[0]);
      HeededAlways(p, Apply(p, s, actions[0]), actions[1..]);
    }
  }

  /** In every run: an error sent or recorded has cancelled the context or a worker is about to cancel it, and
      with a cancelled context a worker that takes up another item drops it without fetching. */
  lemma ErrorHalts(p: Page, actions: seq<Action>, w: nat)
    requires Follows(p, Init(p), actions)
    ensures var t := Final(p, Init(p), actions);
      && ((t.fault.Some? || exists r :: r in Sent(t) && Aborts(r)) ==> Alarmed(t))
      && (t.cancelled.Some? && Enabled(p, t, CheckContext(w)) ==>
            Apply(p, t, CheckContext(w)).workers == t.workers[w := Exited])
  {
    HeededAlways(p, Init(p), actions);
  }
}
