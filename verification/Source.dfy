/** The stream of candidates: three passes, one set of seen identities, one page of fetches after another. */
module Source {
  import opened Catalog
  import opened Identity
  import opened Folder
  import opened FetchPool
  import opened FetchPoolOutcome
  import opened IndexPoolConfluence
  import opened Discovery
  import Indexing
  import Schedules

  /** The k-th choice of the scheduler and of the network in the n-th page. A choice that the machine
      cannot follow is replaced by one it can. */
  type Chooser = (nat, nat, Page, State) -> Action

  datatype DiscoveryFault = RequestsFailed | PageFailed(fault: Fault)

  /** What every yielded candidate is. */
  predicate Welcome(freshIds: set<string>, c: Candidate) {
    Indexing.Worthy(freshIds, c) && CanonicalPresent(c.contents, c.files) && Storable(c.files)
  }

  /** An error nobody in discovery caused: the consumer's, exhausted rate limits, or a cancellation. */
  predicate Rooted(fault: Fault) {
    match fault
    case CallerCancelled => true
    case Refused(r) => r.fetched.Found?
    case FetchFailed(r) => r.fetched == Aborted(RateLimited) || r.blame == Some(Caller)
  }

  function Candidates(rs: seq<Result>): seq<Candidate>
    requires forall r | r in rs :: r.fetched.Found?
  {
    seq(|rs|, i requires 0 <= i < |rs| => rs[i].fetched.candidate)
  }

  ghost predicate AllCanonical(items: seq<Item>) {
    forall item | item in items :: CanonicalName(BaseOf(item.path))
  }

  lemma {:induction false} NamedIs(items: seq<Item>, filename: string)
    ensures forall x | x in Named(items, filename) :: BaseOf(x.path) == filename
  {
    if items != [] {
      NamedIs(items[..|items| - 1], filename);
    }
  }

  lemma {:induction false} GatheredCanonical(replies: seq<TreeReply>)
    ensures AllCanonical(Gathered(replies))
  {
    if replies != [] {
      GatheredCanonical(replies[..|replies| - 1]);
      var last := replies[|replies| - 1];
      if last.Tree? {
        SkillFilesOwn(last.repository, Orders.SortBy(DepthLess, last.entries));
      }
    }
  }

  // --- Schedules and choosers ---------------------------------------------------------------------------

  /** The step taken for a wish. */
  function Chosen(p: Page, s: State, wish: Action): (a: Action)
    requires Shape(p, s) && s.phase.Collecting? && p.width >= 1
    ensures Enabled(p, s, a)
    ensures Enabled(p, s, wish) ==> a == wish
  {
    if Enabled(p, s, wish) then wish else SomeStep(p, s)
  }

  function StepOf(p: Page): (State, Action) -> State {
    (s: State, a: Action) => if Enabled(p, s, a) then Apply(p, s, a) else s
  }

  ghost function PickOf(choose: Chooser, number: nat, p: Page): (nat, State) -> Action {
    (k: nat, s: State) =>
      if Shape(p, s) && s.phase.Collecting? && p.width >= 1 then Chosen(p, s, choose(number, k, p, s)) else CloseResults
  }

  /** The schedule is the one that the chooser picks. */
  ghost predicate Picked(choose: Chooser, number: nat, p: Page, s: State, actions: seq<Action>) {
    Schedules.Plays(PickOf(choose, number, p), StepOf(p), 0, s, actions)
  }

  lemma {:induction false} AfterIsFinal(p: Page, s: State, actions: seq<Action>)
    requires Follows(p, s, actions)
    ensures Schedules.After(StepOf(p), s, actions) == Final(p, s, actions)
    decreases |actions|
  {
    if actions != [] {
      AfterIsFinal(p, Apply(p, s, actions[0]), actions[1..]);
    }
  }

  /** A state that a schedule passes through. */
  lemma {:induction false} PassesThrough(p: Page, s: State, actions: seq<Action>, n: nat)
    requires n < |actions| && Follows(p, s, actions) && Shape(p, s)
    ensures Follows(p, s, actions[..n])
    ensures var t := Final(p, s, actions[..n]); Shape(p, t) && Enabled(p, t, actions[n]) && t.phase.Collecting?
    decreases |actions|
  {
    if n == 0 {
      assert actions[..0] == [];
    } else {
      ShapeKept(p, s, actions[0]);
      PassesThrough(p, Apply(p, s, actions[0]), actions[1..], n - 1);
      assert actions[..n][1..] == actions[1..][..n - 1];
    }
  }

  /** The chooser that picks the actions of a schedule, one after another. */
  function ChooserOf(actions: seq<Action>): Chooser {
    (n: nat, k: nat, p: Page, s: State) =>
      if k < |actions| then actions[k] else CloseResults
  }

  lemma OwnPick(p: Page, s: State, actions: seq<Action>, number: nat, k: nat)
    requires Shape(p, s) && p.width >= 1 && s.phase.Collecting? && k < |actions| && Enabled(p, s, actions[k])
    ensures PickOf(ChooserOf(actions), number, p)(k, s) == actions[k]
  {
    assert ChooserOf(actions)(number, k, p, s) == actions[k];
  }

  lemma PickedByOwn(p: Page, actions: seq<Action>, number: nat)
    requires p.width >= 1 && Follows(p, Init(p), actions)
    requires Shape(p, Init(p))
    ensures Picked(ChooserOf(actions), number, p, Init(p), actions)
  {
    var pick, s := PickOf(ChooserOf(actions), number, p), Init(p);
    forall i: nat | 0 <= i < |actions|
      ensures actions[i] == pick(i, Schedules.After(StepOf(p), s, actions[0..i]))
    {
      PassesThrough(p, s, actions, i);
      AfterIsFinal(p, s, actions[..i]);
      assert actions[0..i] == actions[..i];
      var t := Final(p, s, actions[..i]);
      OwnPick(p, t, actions, number, i);
    }
    Schedules.PlaysAll(pick, StepOf(p), 0, s, actions);
    assert actions[0..] == actions;
  }

  /** A chooser picks one complete schedule. */
  lemma PickedOnce(choose: Chooser, number: nat, p: Page, s: State, one: seq<Action>, two: seq<Action>)
    requires Shape(p, s) && |one| <= |two| && Picked(choose, number, p, s, one) && Picked(choose, number, p, s, two)
    requires Follows(p, s, one) && Final(p, s, one).phase.Returned? && Follows(p, s, two)
    ensures one == two
  {
    Schedules.PlaysPrefix(PickOf(choose, number, p), StepOf(p), 0, s, one, two);
    if |one| < |two| {
      PassesThrough(p, s, two, |one|);
    }
    assert two[..|two|] == two;
  }

  /** Every complete schedule of a page is the one that some chooser picks. */
  lemma ScheduleHasChooser(p: Page, actions: seq<Action>, number: nat)
    requires p.width >= 1 && Follows(p, Init(p), actions) && Final(p, Init(p), actions).phase.Returned?
    ensures Picked(ChooserOf(actions), number, p, Init(p), actions)
    ensures forall other |
      && Follows(p, Init(p), other) && Final(p, Init(p), other).phase.Returned?
      && Picked(ChooserOf(actions), number, p, Init(p), other) :: other == actions
  {
    PickedByOwn(p, actions, number);
    forall other |
      && Follows(p, Init(p), other) && Final(p, Init(p), other).phase.Returned?
      && Picked(ChooserOf(actions), number, p, Init(p), other)
      ensures other == actions
    {
      if |other| <= |actions| {
        PickedOnce(ChooserOf(actions), number, p, Init(p), other, actions);
      } else {
        PickedOnce(ChooserOf(actions), number, p, Init(p), actions, other);
      }
    }
  }

  /** The schedule so far has brought the machine to `t`, step by step as chosen. */
  ghost predicate Played(choose: Chooser, number: nat, p: Page, actions: seq<Action>, t: State) {
    && Follows(p, Init(p), actions) && t == Final(p, Init(p), actions) && Shape(p, t)
    && Picked(choose, number, p, Init(p), actions)
  }

  lemma PlayedOneMore(choose: Chooser, number: nat, p: Page, actions: seq<Action>, t: State, a: Action)
    requires Played(choose, number, p, actions, t) && t.phase.Collecting? && p.width >= 1
    requires a == Chosen(p, t, choose(number, |actions|, p, t))
    ensures Played(choose, number, p, actions + [a], Apply(p, t, a))
    ensures 0 <= Left(p, Apply(p, t, a)) < Left(p, t)
  {
    FollowsAppend(p, Init(p), actions, a);
    AfterIsFinal(p, Init(p), actions);
    Schedules.PlaysOneMore(PickOf(choose, number, p), StepOf(p), 0, Init(p), actions, a);
    ShapeKept(p, t, a);
    EveryStepCounts(p, t, a);
  }

  /** Plays the schedule that the chooser picks to its end. */
  method PlayOut(p: Page, choose: Chooser, number: nat) returns (t: State, ghost actions: seq<Action>)
    requires p.width >= 1
    ensures Follows(p, Init(p), actions) && t == Final(p, Init(p), actions) && t.phase.Returned?
    ensures Picked(choose, number, p, Init(p), actions)
  {
    InvInit(p);
    t, actions := Init(p), [];
    var k := 0;
    while t.phase.Collecting?
      invariant k == |actions| && Played(choose, number, p, actions, t)
      decreases Left(p, t)
    {
      var a := Chosen(p, t, choose(number, k, p, t));
      PlayedOneMore(choose, number, p, actions, t, a);
      actions := actions + [a];
      t := Apply(p, t, a);
      k := k + 1;
    }
  }

  // --- What a page adds to the stream ---------------------------------------------------------------------

  /** A page's items are ready when their identities are new, distinct and not fresh. */
  ghost predicate Ready(id: Item -> string, items: seq<Item>, freshIds: set<string>, before: seq<Candidate>) {
    && DistinctItems(id, items) && AllCanonical(items)
    && (forall i | 0 <= i < |items| :: id(items[i]) !in freshIds)
    && (forall i, k | 0 <= i < |items| && 0 <= k < |before| :: id(items[i]) != before[k].id)
  }

  lemma YieldWelcome(p: Page, r: Result, freshIds: set<string>)
    requires r.fetched.Found? && r.job < |p.items| && AsPromised(p.settings, p.items[r.job], r.fetched)
    requires AllCanonical(p.items) && IdOf(p.settings.unicode, p.items[r.job]) !in freshIds
    ensures r.fetched.candidate.id == Naming(p.settings.unicode)(p.items[r.job])
      && Welcome(freshIds, r.fetched.candidate)
  {
    assert p.items[r.job] in p.items;
    FoundIsCanonical(p.settings, p.items[r.job], r.fetched.candidate);
  }

  lemma JoinDistinct(id: Item -> string, items: seq<Item>, freshIds: set<string>, before: seq<Candidate>,
                     rs: seq<Result>)
    requires Ready(id, items, freshIds, before) && DistinctIds(before)
    requires forall r | r in rs :: r.fetched.Found?
    requires forall i | 0 <= i < |rs| :: rs[i].job < |items| && Candidates(rs)[i].id == id(items[rs[i].job])
    requires forall i, k | 0 <= i < k < |rs| :: rs[i].job != rs[k].job
    ensures DistinctIds(before + Candidates(rs))
  {
    var more := Candidates(rs);
    forall i, k | 0 <= i < k < |before + more|
      ensures (before + more)[i].id != (before + more)[k].id
    {
      if i >= |before| {
        var a, b := rs[i - |before|].job, rs[k - |before|].job;
        assert a != b && id(items[a]) != id(items[b]);
      } else if k >= |before| {
        assert id(items[rs[k - |before|].job]) != before[i].id;
      }
    }
  }

  /** The new yields of a page fit the stream so far. */
  lemma PageYields(p: Page, actions: seq<Action>, freshIds: set<string>, before: seq<Candidate>)
    requires Follows(p, Init(p), actions)
    requires Ready(Naming(p.settings.unicode), p.items, freshIds, before)
    requires DistinctIds(before)
    ensures var rs := Final(p, Init(p), actions).yielded;
      && (forall r | r in rs :: r.fetched.Found?)
      && DistinctIds(before + Candidates(rs))
      && (forall i | 0 <= i < |rs| :: Welcome(freshIds, Candidates(rs)[i])
            && Candidates(rs)[i].id in Discovery.Ids(Naming(p.settings.unicode), p.items))
  {
    YieldsAreDistinct(p, actions);
    var rs, id := Final(p, Init(p), actions).yielded, Naming(p.settings.unicode);
    forall i | 0 <= i < |rs|
      ensures rs[i].job < |p.items| && Candidates(rs)[i].id == id(p.items[rs[i].job])
        && Welcome(freshIds, Candidates(rs)[i])
      ensures Candidates(rs)[i].id in Discovery.Ids(id, p.items)
    {
      assert rs[i] in rs;
      assert id(p.items[rs[i].job]) !in freshIds;
      YieldWelcome(p, rs[i], freshIds);
      IdsHold(id, p.items);
    }
    JoinDistinct(id, p.items, freshIds, before, rs);
  }

  /** The candidates yielded are welcome, no identity comes twice, and all are marked as seen. */
  ghost predicate Streamed(freshIds: set<string>, yielded: seq<Candidate>, seen: set<string>) {
    DistinctIds(yielded) && forall k | 0 <= k < |yielded| :: Welcome(freshIds, yielded[k]) && yielded[k].id in seen
  }

  /** What has been offered and what the pages ahead will add make up `all`, after what was there at the start. */
  ghost predicate Ahead(start: seq<Item>, offered: seq<Item>, rest: seq<Item>, all: seq<Item>) {
    offered + rest == start + all
  }

  lemma AheadMoves(start: seq<Item>, offered: seq<Item>, offered': seq<Item>, page: seq<Item>, rest: seq<Item>,
                   all: seq<Item>)
    requires Ahead(start, offered, page + rest, all) && offered' == offered + page
    ensures Ahead(start, offered', rest, all)
  {
    assert offered + (page + rest) == (offered + page) + rest;
  }

  lemma AheadAtStart(start: seq<Item>, all: seq<Item>)
    ensures Ahead(start, start, all, all)
  {
  }

  lemma NothingAhead(start: seq<Item>, offered: seq<Item>, all: seq<Item>)
    requires Ahead(start, offered, [], all)
    ensures offered == start + all
  {
    assert offered + [] == offered;
  }

  lemma Assembled(a: seq<Item>, b: seq<Item>, c: seq<Item>, d: seq<Item>, first: seq<Item>, second: seq<Item>,
                  third: seq<Item>, all: seq<Item>)
    requires first == [] + a && second == first + b && third == second + c && all == third + d
    ensures all == a + b + c + d
  {
    assert [] + a == a;
  }

  /** The filter's state after `done`, having begun with the identities `before`. */
  ghost predicate Sifted(id: Item -> string, freshIds: set<string>, before: set<string>, done: seq<Item>,
                         seen: set<string>, kept: seq<Item>) {
    seen == before + Discovery.Ids(id, done) && kept == Keep(id, freshIds, before, done)
  }

  lemma SiftedOneMore(id: Item -> string, freshIds: set<string>, before: set<string>, done: seq<Item>,
                      seen: set<string>, kept: seq<Item>, item: Item)
    requires Sifted(id, freshIds, before, done, seen, kept)
    ensures id(item) in seen ==> Sifted(id, freshIds, before, done + [item], seen, kept)
    ensures id(item) !in seen && id(item) in freshIds ==>
      Sifted(id, freshIds, before, done + [item], seen + {id(item)}, kept)
    ensures id(item) !in seen + freshIds ==>
      Sifted(id, freshIds, before, done + [item], seen + {id(item)}, kept + [item])
  {
    KeepNext(id, freshIds, before, done, item);
  }

  /** The filter's state after `offered`, page by page. */
  ghost predicate Filtered(id: Item -> string, freshIds: set<string>, offered: seq<Item>, seen: set<string>,
                           fetched: seq<Item>) {
    seen == Discovery.Ids(id, offered) && fetched == Keep(id, freshIds, {}, offered)
  }

  lemma FilteredOn(id: Item -> string, freshIds: set<string>, offered: seq<Item>, seen: set<string>, fetched: seq<Item>,
                   items: seq<Item>, seen': set<string>, kept: seq<Item>)
    requires Filtered(id, freshIds, offered, seen, fetched)
    requires seen' == seen + Discovery.Ids(id, items) && kept == Keep(id, freshIds, seen, items)
    ensures Filtered(id, freshIds, offered + items, seen', fetched + kept)
  {
    KeepConcat(id, freshIds, {}, offered, items);
    IdsConcat(id, offered, items);
    assert {} + Discovery.Ids(id, offered) == seen;
  }

  lemma KeptIsReady(id: Item -> string, freshIds: set<string>, seen: set<string>, items: seq<Item>,
                    before: seq<Candidate>)
    requires AllCanonical(items) && forall k | 0 <= k < |before| :: before[k].id in seen
    ensures Ready(id, Keep(id, freshIds, seen, items), freshIds, before)
    ensures Discovery.Ids(id, Keep(id, freshIds, seen, items)) <= Discovery.Ids(id, items)
  {
    var kept := Keep(id, freshIds, seen, items);
    KeepIsFilter(id, freshIds, seen, items);
    forall i | 0 <= i < |kept|
      ensures kept[i] in items && id(kept[i]) !in seen && id(kept[i]) !in freshIds
    {
      assert kept[i] in kept;
    }
  }

  lemma OfferKeeps(id: Item -> string, freshIds: set<string>, yielded: seq<Candidate>, offered: seq<Item>,
                   seen: set<string>, fetched: seq<Item>, items: seq<Item>, seen': set<string>, kept: seq<Item>)
    requires Streamed(freshIds, yielded, seen) && Filtered(id, freshIds, offered, seen, fetched) && AllCanonical(items)
    requires seen' == seen + Discovery.Ids(id, items) && kept == Keep(id, freshIds, seen, items)
    ensures Streamed(freshIds, yielded, seen') && Filtered(id, freshIds, offered + items, seen', fetched + kept)
    ensures Ready(id, kept, freshIds, yielded) && Discovery.Ids(id, kept) <= seen'
  {
    FilteredOn(id, freshIds, offered, seen, fetched, items, seen', kept);
    KeptIsReady(id, freshIds, seen, items, yielded);
  }

  class Stream {
    const settings: Settings
    const concurrency: nat
    const freshIds: set<string>
    const maxPages: nat
    var seen: set<string>
    var yielded: seq<Candidate>
    var pages: nat
    ghost var offered: seq<Item>   // everything the filter has been given
    ghost var fetched: seq<Item>   // what it let through to the pool
    ghost var passedOver: nat      // fetched items without enough stars or a readable skill file

    constructor (settings: Settings, concurrency: nat, freshIds: set<string>, maxPages: nat)
      requires concurrency >= 1
      ensures Valid() && yielded == [] && offered == [] && Balanced()
      ensures this.settings == settings && this.freshIds == freshIds && this.maxPages == maxPages
    {
      this.settings, this.concurrency, this.freshIds, this.maxPages := settings, concurrency, freshIds, maxPages;
      seen, yielded, pages, offered, fetched, passedOver := {}, [], 0, [], [], 0;
    }

    /** The stream is welcome and without repetition, and the filter has worked as if on one long page. */
    ghost predicate Valid()
      reads this
    {
      concurrency >= 1 && Streamed(freshIds, yielded, seen) && Filtered(Id(), freshIds, offered, seen, fetched)
    }

    /** Every fetched item has been accounted for. */
    ghost predicate Balanced()
      reads this
    {
      |fetched| == |yielded| + passedOver
    }

    function Id(): Item -> string {
      Naming(settings.unicode)
    }

    /** Marks identities as seen and keeps the items whose identity is new and not fresh. */
    method Sift(naming: Item -> string, items: seq<Item>) returns (kept: seq<Item>)
      modifies this`seen
      ensures kept == Keep(naming, freshIds, old(seen), items)
      ensures seen == old(seen) + Discovery.Ids(naming, items)
    {
      ghost var before, done := seen, [];
      kept := [];
      for k := 0 to |items|
        invariant done == items[..k] && Sifted(naming, freshIds, before, done, seen, kept)
      {
        SiftedOneMore(naming, freshIds, before, done, seen, kept, items[k]);
        done := done + [items[k]];
        var id := naming(items[k]);
        if id in seen {
          continue;
        }
        seen := seen + {id};
        if id in freshIds {
          continue;
        }
        kept := kept + [items[k]];
      }
      assert done == items;
    }

    function PageOf(items: seq<Item>): Page {
      Page(settings, items, if concurrency < |items| then concurrency else |items|)
    }

    /** Fetches the items of a page: the yields and the error are those of some run of the pool. */
    method FetchCandidates(items: seq<Item>, choose: Chooser) returns (fault: Option<Fault>, ghost actions: seq<Action>)
      requires Valid() && Ready(Id(), items, freshIds, yielded) && Discovery.Ids(Id(), items) <= seen
      modifies this`yielded, this`pages, this`passedOver
      ensures Valid()
      ensures items == [] ==> fault.None? && yielded == old(yielded)
      ensures old(yielded) <= yielded
      ensures items != [] ==>
        && Follows(PageOf(items), Init(PageOf(items)), actions)
        && var t := Final(PageOf(items), Init(PageOf(items)), actions);
           && t.phase == Returned(fault)
           && (forall r | r in t.yielded :: r.fetched.Found?) && yielded == old(yielded) + Candidates(t.yielded)
      ensures fault.None? ==> |yielded| + passedOver == |old(yielded)| + old(passedOver) + |items|
      ensures fault.Some? ==> Rooted(fault.value)
    {
      actions := [];
      if items == [] {
        return None, [];
      }
      var p := PageOf(items);
      pages := pages + 1;
      var t;
      t, actions := PlayOut(p, choose, pages);
      PageYields(p, actions, freshIds, yielded);
      RootCause(p, actions);
      if t.phase.fault.None? {
        PageReturns(p, actions);
      }
      yielded := yielded + Candidates(t.yielded);
      passedOver := passedOver + t.starsSkipped + t.contentFailures;
      fault := t.phase.fault;
    }

    /** Offers the items of a page to the filter; those it keeps are ready to be fetched. */
    method Offer(items: seq<Item>) returns (kept: seq<Item>)
      requires Valid() && AllCanonical(items)
      modifies this`seen, this`offered, this`fetched
      ensures Valid() && offered == old(offered) + items && fetched == old(fetched) + kept
      ensures Ready(Id(), kept, freshIds, yielded) && Discovery.Ids(Id(), kept) <= seen
    {
      kept := Sift(Id(), items);
      OfferKeeps(Id(), freshIds, yielded, offered, old(seen), fetched, items, seen, kept);
      offered := offered + items;
      fetched := fetched + kept;
    }

    /** One page: the filter, then the fetches. */
    method TakePage(items: seq<Item>, choose: Chooser) returns (fault: Option<Fault>)
      requires Valid() && AllCanonical(items)
      modifies this
      ensures Valid() && old(yielded) <= yielded && offered == old(offered) + items
      ensures fault.None? && old(Balanced()) ==> Balanced()
      ensures fault.Some? ==> Rooted(fault.value)
    {
      var kept := Offer(items);
      ghost var actions;
      fault, actions := FetchCandidates(kept, choose);
    }

    method OfficialRepositories(net: Network, choose: Chooser) returns (fault: Option<DiscoveryFault>)
      requires Valid() && Balanced()
      modifies this
      ensures Valid()
      ensures fault.None? ==> Balanced() && offered == old(offered) + OfficialItems(net)
      ensures fault.Some? && fault.value.PageFailed? ==> Rooted(fault.value.fault)
    {
      if net.metadata == [] {
        return None;
      }
      var repositories, metadataAborted := CollectMetadata(net.metadata);
      if metadataAborted {
        return Some(RequestsFailed);
      }
      if repositories == [] {
        return None;
      }
      var items, aborted := Collect(net.trees(repositories));
      if aborted {
        return Some(RequestsFailed);
      }
      GatheredCanonical(net.trees(repositories));
      var failed := TakePage(items, choose);
      return if failed.Some? then Some(PageFailed(failed.value)) else None;
    }

    method PopularRepositories(net: Network, choose: Chooser) returns (fault: Option<DiscoveryFault>)
      requires Valid() && Balanced()
      modifies this
      ensures Valid()
      ensures fault.None? ==> Balanced() && offered == old(offered) + PopularItems(net, maxPages, 1)
      ensures fault.Some? && fault.value.PageFailed? ==> Rooted(fault.value.fault)
    {
      ghost var start, all := offered, PopularItems(net, maxPages, 1);
      AheadAtStart(start, all);
      for n := 1 to maxPages + 1
        invariant Valid() && Balanced() && Ahead(start, offered, PopularItems(net, maxPages, n), all)
      {
        match net.popular(n) {
          case SearchFailed(aborts) =>
            if aborts {
              return Some(RequestsFailed);
            }
            NothingAhead(start, offered, all);
            return None;
          case Repositories(trees, results, total) =>
            var items, aborted := Collect(trees);
            if aborted {
              return Some(RequestsFailed);
            }
            GatheredCanonical(trees);
            ghost var before := offered;
            var failed := TakePage(items, choose);
            if failed.Some? {
              return Some(PageFailed(failed.value));
            }
            PopularPage(net, maxPages, n);
            if LastPage(n, results, total) {
              AheadMoves(start, before, offered, items, [], all);
              NothingAhead(start, offered, all);
              return None;
            }
            AheadMoves(start, before, offered, items, PopularItems(net, maxPages, n + 1), all);
        }
      }
      NothingAhead(start, offered, all);
      return None;
    }

    method CodeSearch(net: Network, filename: string, choose: Chooser) returns (fault: Option<DiscoveryFault>)
      requires Valid() && Balanced() && CanonicalName(filename)
      modifies this
      ensures Valid()
      ensures fault.None? ==> Balanced() && offered == old(offered) + CodeItems(net, maxPages, filename, 1)
      ensures fault.Some? && fault.value.PageFailed? ==> Rooted(fault.value.fault)
    {
      ghost var start, all := offered, CodeItems(net, maxPages, filename, 1);
      AheadAtStart(start, all);
      for n := 1 to maxPages + 1
        invariant Valid() && Balanced() && Ahead(start, offered, CodeItems(net, maxPages, filename, n), all)
      {
        match net.code(filename, n) {
          case CodeSearchFailed => return Some(RequestsFailed);
          case Code(items, total) =>
            NamedIs(items, filename);
            ghost var before := offered;
            var failed := TakePage(Named(items, filename), choose);
            if failed.Some? {
              return Some(PageFailed(failed.value));
            }
            CodePageItems(net, maxPages, filename, n);
            if LastPage(n, |items|, total) {
              AheadMoves(start, before, offered, Named(items, filename), [], all);
              NothingAhead(start, offered, all);
              return None;
            }
            AheadMoves(start, before, offered, Named(items, filename), CodeItems(net, maxPages, filename, n + 1), all);
        }
      }
      NothingAhead(start, offered, all);
      return None;
    }

    /** The whole stream: official repositories, popular repositories, code search. It yields distinct,
        welcome candidates; if it ends without error, the items fetched are those that one pass of the
        filter over all pages keeps, and each of them was yielded or passed over for a reason. */
    method DiscoverStream(catalogLoads: bool, net: Network, choose: Chooser) returns (fault: Option<DiscoveryFault>)
      requires Valid() && Balanced() && yielded == [] && offered == []
      modifies this
      ensures Valid()
      ensures DistinctIds(yielded) && forall k | 0 <= k < |yielded| :: Welcome(freshIds, yielded[k])
      ensures fault.None? ==>
        fetched == Keep(Id(), freshIds, {}, AllItems(net, maxPages)) && |fetched| == |yielded| + passedOver
      ensures fault.None? ==> FetchedFrom(Id(), freshIds, net, maxPages, fetched)
      ensures fault.Some? && fault.value.PageFailed? ==> Rooted(fault.value.fault)
    {
      if !catalogLoads {
        return Some(RequestsFailed);
      }
      fault := OfficialRepositories(net, choose);
      if fault.Some? {
        return;
      }
      ghost var first := offered;
      fault := PopularRepositories(net, choose);
      if fault.Some? {
        return;
      }
      ghost var second := offered;
      fault := CodeSearch(net, "SKILL.md", choose);
      if fault.Some? {
        return;
      }
      ghost var third := offered;
      fault := CodeSearch(net, "SKILLS.md", choose);
      if fault.None? {
        Assembled(OfficialItems(net), PopularItems(net, maxPages, 1), CodeItems(net, maxPages, "SKILL.md", 1),
                  CodeItems(net, maxPages, "SKILLS.md", 1), first, second, third, offered);
        FetchedIsOffered(Id(), freshIds, net, maxPages);
      }
    }
  }

  lemma StepSkipsNone(env: Env, verdict: string -> Assessment, sn: Indexing.Snapshot, before: (Rows, Indexing.Stats),
                      c: Candidate)
    requires Welcome(sn.freshIds, c)
    ensures var skipped := Indexing.Step(env, verdict, sn, before, c).1.skipped;
      skipped.stars == before.1.skipped.stars && skipped.recent == before.1.skipped.recent
  {
  }

  lemma {:induction false} LoopSkipsNone(env: Env, verdict: string -> Assessment, sn: Indexing.Snapshot, rows: Rows,
                                         stream: seq<Candidate>)
    requires forall k | 0 <= k < |stream| :: Welcome(sn.freshIds, stream[k])
    ensures var skipped := Indexing.Loop(env, verdict, sn, rows, stream).1.skipped;
      skipped.stars == 0 && skipped.recent == 0
  {
    if stream != [] {
      var front := stream[..|stream| - 1];
      assert forall k | 0 <= k < |front| :: front[k] == stream[k];
      LoopSkipsNone(env, verdict, sn, rows, front);
      StepSkipsNone(env, verdict, sn, Indexing.Loop(env, verdict, sn, rows, front), stream[|stream| - 1]);
    }
  }

  lemma {:induction false} LiveLoopSkipsNone(env: Env, verdict: string -> Assessment, freshIds: set<string>, rows: Rows,
                                             stream: seq<Candidate>)
    requires forall k | 0 <= k < |stream| :: Welcome(freshIds, stream[k])
    ensures var skipped := Indexing.LiveLoop(env, verdict, freshIds, rows, stream).1.skipped;
      skipped.stars == 0 && skipped.recent == 0
  {
    if stream != [] {
      var front := stream[..|stream| - 1];
      assert forall k | 0 <= k < |front| :: front[k] == stream[k];
      LiveLoopSkipsNone(env, verdict, freshIds, rows, front);
      var live := Indexing.LiveLoop(env, verdict, freshIds, rows, front);
      StepSkipsNone(env, verdict, Indexing.Snapshot(freshIds, Indexing.HashesOf(live.0)), live, stream[|stream| - 1]);
    }
  }

  /** What an indexing run gains from such a stream: its filter, over any part of the stream and whatever
      comes of the candidates, skips none as fresh or for its stars; nor does the reference loop, whether
      it looks hashes up in a snapshot or in the live table; and the canonical files are there. */
  lemma StreamSuitsIndex(env: Env, verdict: string -> Assessment, sn: Indexing.Snapshot, rows: Rows,
                         stream: seq<Candidate>)
    requires forall k | 0 <= k < |stream| :: Welcome(sn.freshIds, stream[k])
    ensures var skipped := Indexing.Skipped(env, sn, stream).skipped; skipped.stars == 0 && skipped.recent == 0
    ensures var skipped := Indexing.Loop(env, verdict, sn, rows, stream).1.skipped;
      skipped.stars == 0 && skipped.recent == 0
    ensures var skipped := Indexing.LiveLoop(env, verdict, sn.freshIds, rows, stream).1.skipped;
      skipped.stars == 0 && skipped.recent == 0
    ensures forall k | 0 <= k < |stream| :: CanonicalPresent(stream[k].contents, stream[k].files)
  {
    Indexing.WorthyNotSkipped(env, sn, stream);
    LoopSkipsNone(env, verdict, sn, rows, stream);
    LiveLoopSkipsNone(env, verdict, sn.freshIds, rows, stream);
  }
}
