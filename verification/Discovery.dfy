/** Discovery on GitHub: three passes over pages of skill files that share one set of seen identities. */
module Discovery {
  import opened Catalog
  import opened Orders
  import opened Identity
  import opened Sequences

  /** The n-th page of a search, with so many results of a total, is its last one: pages hold a hundred. */
  predicate LastPage(n: nat, results: nat, total: int) {
    results < 100 || n * 100 >= total
  }

  datatype Repository = Repository(fullName: string, stars: int)

  datatype TreeEntry = TreeEntry(path: string, kind: string, url: string)

  /** The tree of a repository, or a failure that may oblige the pass to abort. */
  datatype TreeReply = Tree(repository: Repository, entries: seq<TreeEntry>) | TreeFailed(aborts: bool)

  /** A page of the ranked repository search, its trees in the order they were completed. */
  datatype RepositoryPage = Repositories(trees: seq<TreeReply>, results: nat, total: int) | SearchFailed(aborts: bool)

  datatype CodePage = Code(items: seq<Item>, total: int) | CodeSearchFailed

  /** What a request for a repository's metadata came to. */
  datatype MetadataReply = Metadata(repository: Repository) | LowStars | MetadataFailed(aborts: bool)

  /** What the network answers: the metadata of the official repositories in the order of completion, the
      trees of some repositories likewise, pages of repositories, and pages of code search. */
  datatype Network = Network(
    metadata: seq<MetadataReply>, trees: seq<Repository> -> seq<TreeReply>,
    popular: nat -> RepositoryPage, code: (string, nat) -> CodePage)

  // --- Skill files of a tree -----------------------------------------------------------------------------

  predicate DepthLess(a: TreeEntry, b: TreeEntry) {
    Depth(a.path) < Depth(b.path) || (Depth(a.path) == Depth(b.path) && Less(a.path, b.path))
  }

  predicate IsSkillFile(entry: TreeEntry) {
    entry.kind == "blob" && CanonicalName(BaseOf(entry.path))
  }

  function ItemOf(repository: Repository, entry: TreeEntry): Item {
    Item(entry.path, entry.url, repository.fullName, repository.stars)
  }

  function SkillFiles(repository: Repository, entries: seq<TreeEntry>): seq<Item> {
    if entries == [] then []
    else
      var front, entry := SkillFiles(repository, entries[..|entries| - 1]), entries[|entries| - 1];
      if IsSkillFile(entry) then front + [ItemOf(repository, entry)] else front
  }

  function TreeItems(reply: TreeReply): seq<Item> {
    match reply
    case Tree(repository, entries) => SkillFiles(repository, SortBy(DepthLess, entries))
    case TreeFailed(_) => []
  }

  method ReadTree(repository: Repository, entries: seq<TreeEntry>) returns (items: seq<Item>)
    ensures items == TreeItems(Tree(repository, entries))
  {
    var sorted := SortBy(DepthLess, entries);
    items := [];
    for k := 0 to |sorted|
      invariant items == SkillFiles(repository, sorted[..k])
    {
      assert sorted[..k + 1][..k] == sorted[..k];
      if sorted[k].kind != "blob" || !CanonicalName(BaseOf(sorted[k].path)) {
        continue;
      }
      items := items + [ItemOf(repository, sorted[k])];
    }
    assert sorted[..|sorted|] == sorted;
  }

  function Gathered(replies: seq<TreeReply>): seq<Item> {
    if replies == [] then [] else Gathered(replies[..|replies| - 1]) + TreeItems(replies[|replies| - 1])
  }

  lemma GatheredNext(replies: seq<TreeReply>, k: nat)
    requires k < |replies|
    ensures Gathered(replies[..k + 1]) == Gathered(replies[..k]) + TreeItems(replies[k])
    ensures replies[k].TreeFailed? ==> Gathered(replies[..k + 1]) == Gathered(replies[..k])
  {
    assert replies[..k + 1][..k] == replies[..k];
  }

  predicate Obliges(reply: TreeReply) {
    reply.TreeFailed? && reply.aborts
  }

  /** Collects the trees in the order of their completion; a failure drops its tree or ends the pass. */
  method Collect(replies: seq<TreeReply>) returns (items: seq<Item>, aborted: bool)
    ensures aborted <==> exists k | 0 <= k < |replies| :: Obliges(replies[k])
    ensures !aborted ==> items == Gathered(replies)
  {
    items := [];
    for k := 0 to |replies|
      invariant items == Gathered(replies[..k])
      invariant forall m | 0 <= m < k :: !Obliges(replies[m])
    {
      GatheredNext(replies, k);
      match replies[k] {
        case TreeFailed(aborts) =>
          if aborts {
            assert Obliges(replies[k]);
            return [], true;
          }
        case Tree(repository, entries) =>
          var found := ReadTree(repository, entries);
          items := items + found;
      }
    }
    assert replies[..|replies|] == replies;
    aborted := false;
  }

  // --- The filter of seen and fresh identities --------------------------------------------------------------

  /** How items are identified. */
  function Naming(u: Unicode): Item -> string {
    item => IdOf(u, item)
  }

  /** Different repositories, different identities. */
  ghost predicate Separates(id: Item -> string) {
    forall a, b :: id(a) == id(b) ==> a.fullName == b.fullName
  }

  lemma NamingSeparates(u: Unicode)
    ensures Separates(Naming(u))
  {
    forall a, b | Naming(u)(a) == Naming(u)(b)
      ensures a.fullName == b.fullName
    {
      IdsCollide(u, a, b);
    }
  }

  function Ids(id: Item -> string, items: seq<Item>): set<string> {
    set item | item in items :: id(item)
  }

  /** The items whose identity has not been seen before, each identity once, without the fresh ones. */
  function Keep(id: Item -> string, freshIds: set<string>, seen: set<string>, items: seq<Item>): seq<Item> {
    if items == [] then []
    else
      var front, item := items[..|items| - 1], items[|items| - 1];
      var kept := Keep(id, freshIds, seen, front);
      if id(item) in seen + Ids(id, front) + freshIds then kept else kept + [item]
  }

  ghost predicate DistinctItems(id: Item -> string, items: seq<Item>) {
    forall i, j | 0 <= i < j < |items| :: id(items[i]) != id(items[j])
  }

  lemma IdsAppend(id: Item -> string, items: seq<Item>, item: Item)
    ensures Ids(id, items + [item]) == Ids(id, items) + {id(item)}
  {
    assert forall x :: x in items + [item] <==> x in items || x == item;
  }

  /** What is kept has new identities, each once, and none of them fresh; and each new identity that is
      not fresh is kept. */
  lemma {:induction false} KeepIsFilter(id: Item -> string, freshIds: set<string>, seen: set<string>, items: seq<Item>)
    ensures var kept := Keep(id, freshIds, seen, items);
      && DistinctItems(id, kept)
      && (forall x | x in kept :: x in items && id(x) !in seen && id(x) !in freshIds)
      && Ids(id, kept) == Ids(id, items) - seen - freshIds
  {
    if items != [] {
      var front, item := items[..|items| - 1], items[|items| - 1];
      KeepIsFilter(id, freshIds, seen, front);
      var kept := Keep(id, freshIds, seen, front);
      assert items == front + [item];
      IdsAppend(id, front, item);
      if id(item) !in seen + Ids(id, front) + freshIds {
        IdsAppend(id, kept, item);
        OneMoreDistinct(id, kept, item);
      }
    }
  }

  lemma KeepNext(id: Item -> string, freshIds: set<string>, seen: set<string>, front: seq<Item>, item: Item)
    ensures var kept := Keep(id, freshIds, seen, front);
      Keep(id, freshIds, seen, front + [item]) ==
        if id(item) in seen + Ids(id, front) + freshIds then kept else kept + [item]
    ensures Ids(id, front + [item]) == Ids(id, front) + {id(item)}
  {
    assert (front + [item])[..|front|] == front;
    IdsAppend(id, front, item);
  }

  lemma {:induction false} IdsConcat(id: Item -> string, p: seq<Item>, q: seq<Item>)
    ensures Ids(id, p + q) == Ids(id, p) + Ids(id, q)
  {
    assert forall x :: x in p + q <==> x in p || x in q;
  }

  lemma KeepBoth(id: Item -> string, freshIds: set<string>, seen: set<string>, p: seq<Item>, front: seq<Item>,
                 item: Item, q: seq<Item>, whole: seq<Item>)
    requires Keep(id, freshIds, seen, p + front) ==
      Keep(id, freshIds, seen, p) + Keep(id, freshIds, seen + Ids(id, p), front)
    requires q == front + [item] && whole == p + front + [item]
    ensures Keep(id, freshIds, seen, whole) == Keep(id, freshIds, seen, p) + Keep(id, freshIds, seen + Ids(id, p), q)
  {
    IdsConcat(id, p, front);
    KeepNext(id, freshIds, seen, p + front, item);
    KeepNext(id, freshIds, seen + Ids(id, p), front, item);
    assert seen + Ids(id, p + front) + freshIds == seen + Ids(id, p) + Ids(id, front) + freshIds;
  }

  /** Filtering page after page is filtering everything at once. */
  lemma {:induction false} KeepConcat(id: Item -> string, freshIds: set<string>, seen: set<string>, p: seq<Item>,
                                      q: seq<Item>)
    ensures Keep(id, freshIds, seen, p + q) == Keep(id, freshIds, seen, p) + Keep(id, freshIds, seen + Ids(id, p), q)
    decreases |q|
  {
    if q == [] {
      assert p + q == p;
    } else {
      var front, item := q[..|q| - 1], q[|q| - 1];
      KeepConcat(id, freshIds, seen, p, front);
      LastElement(p, q);
      KeepBoth(id, freshIds, seen, p, front, item, q, p + q);
    }
  }

  lemma IdsHold(id: Item -> string, items: seq<Item>)
    ensures forall k | 0 <= k < |items| :: id(items[k]) in Ids(id, items)
  {
    assert forall k | 0 <= k < |items| :: items[k] in items;
  }

  lemma OneMoreDistinct(id: Item -> string, items: seq<Item>, item: Item)
    requires DistinctItems(id, items) && id(item) !in Ids(id, items)
    ensures DistinctItems(id, items + [item])
  {
    IdsHold(id, items);
  }

  // --- Schedules ---------------------------------------------------------------------------------------------

  /** The items of one repository, in order. */
  function OfRepository(items: seq<Item>, fullName: string): seq<Item> {
    if items == [] then []
    else
      var front, item := OfRepository(items[..|items| - 1], fullName), items[|items| - 1];
      if item.fullName == fullName then front + [item] else front
  }

  lemma {:induction false} OfRepositoryConcat(p: seq<Item>, q: seq<Item>, fullName: string)
    ensures OfRepository(p + q, fullName) == OfRepository(p, fullName) + OfRepository(q, fullName)
    decreases |q|
  {
    if q == [] {
      assert p + q == p;
    } else {
      var n := |q| - 1;
      assert (p + q)[..|p + q| - 1] == p + q[..n];
      OfRepositoryConcat(p, q[..n], fullName);
    }
  }

  lemma {:induction false} OfRepositoryIs(items: seq<Item>, fullName: string)
    ensures forall x :: x in OfRepository(items, fullName) <==> x in items && x.fullName == fullName
  {
    if items != [] {
      OfRepositoryIs(items[..|items| - 1], fullName);
      assert items == items[..|items| - 1] + [items[|items| - 1]];
    }
  }

  /** The filter works on each repository by itself, since identities of different repositories never
      collide. */
  lemma {:induction false} KeepPerRepository(id: Item -> string, freshIds: set<string>, seen: set<string>,
                                             items: seq<Item>, fullName: string)
    requires Separates(id)
    ensures OfRepository(Keep(id, freshIds, seen, items), fullName) ==
      Keep(id, freshIds, seen, OfRepository(items, fullName))
  {
    if items != [] {
      var front, item := items[..|items| - 1], items[|items| - 1];
      KeepPerRepository(id, freshIds, seen, front, fullName);
      var kept := Keep(id, freshIds, seen, front);
      assert (kept + [item])[..|kept|] == kept;
      if item.fullName == fullName {
        var own := OfRepository(front, fullName);
        assert (own + [item])[..|own|] == own;
        SeenOnlyByOwn(id, front, item);
      }
    }
  }

  lemma SeenOnlyByOwn(id: Item -> string, items: seq<Item>, item: Item)
    requires Separates(id)
    ensures id(item) in Ids(id, items) <==> id(item) in Ids(id, OfRepository(items, item.fullName))
  {
    OfRepositoryIs(items, item.fullName);
  }

  /** Trees of one pass: each repository at most once. */
  ghost predicate OneTreeEach(replies: seq<TreeReply>) {
    forall i, j | 0 <= i < j < |replies| && replies[i].Tree? && replies[j].Tree? ::
      replies[i].repository.fullName != replies[j].repository.fullName
  }

  lemma {:induction false} SkillFilesOwn(repository: Repository, entries: seq<TreeEntry>)
    ensures forall x | x in SkillFiles(repository, entries) ::
      x.fullName == repository.fullName && CanonicalName(BaseOf(x.path))
  {
    if entries != [] {
      SkillFilesOwn(repository, entries[..|entries| - 1]);
    }
  }

  lemma {:induction false} OwnItems(items: seq<Item>, fullName: string, other: string)
    requires forall x | x in items :: x.fullName == fullName
    ensures OfRepository(items, other) == if other == fullName then items else []
  {
    if items != [] {
      var front := items[..|items| - 1];
      assert forall x | x in front :: x in items;
      assert items[|items| - 1] in items;
      OwnItems(front, fullName, other);
      assert items == front + [items[|items| - 1]];
    }
  }

  /** What a reply contributes to a repository: all its items or none. */
  lemma ReplyPerRepository(reply: TreeReply, f: string)
    ensures OfRepository(TreeItems(reply), f) ==
      if reply.Tree? && reply.repository.fullName == f then TreeItems(reply) else []
  {
    if reply.Tree? {
      SkillFilesOwn(reply.repository, SortBy(DepthLess, reply.entries));
      OwnItems(TreeItems(reply), reply.repository.fullName, f);
    }
  }

  lemma GatheredOneMore(replies: seq<TreeReply>, f: string)
    requires replies != []
    ensures OfRepository(Gathered(replies), f)
         == OfRepository(Gathered(replies[..|replies| - 1]), f) + OfRepository(TreeItems(replies[|replies| - 1]), f)
  {
    OfRepositoryConcat(Gathered(replies[..|replies| - 1]), TreeItems(replies[|replies| - 1]), f);
  }

  lemma TreeIsLast(replies: seq<TreeReply>)
    requires OneTreeEach(replies) && replies != [] && replies[|replies| - 1].Tree?
    ensures OfRepository(Gathered(replies), replies[|replies| - 1].repository.fullName) ==
      TreeItems(replies[|replies| - 1])
  {
    var n := |replies| - 1;
    var f := replies[n].repository.fullName;
    assert forall i | 0 <= i < n :: replies[..n][i] == replies[i];
    NoTreeNoItems(replies[..n], f);
    GatheredOneMore(replies, f);
    ReplyPerRepository(replies[n], f);
  }

  lemma TreeIsEarlier(replies: seq<TreeReply>, f: string)
    requires replies != [] && !(replies[|replies| - 1].Tree? && replies[|replies| - 1].repository.fullName == f)
    ensures OfRepository(Gathered(replies), f) == OfRepository(Gathered(replies[..|replies| - 1]), f)
  {
    GatheredOneMore(replies, f);
    ReplyPerRepository(replies[|replies| - 1], f);
  }

  /** Where the tree of a repository is, its items are those of the whole collection. */
  lemma {:induction false} GatheredPerRepository(replies: seq<TreeReply>, k: nat)
    requires OneTreeEach(replies) && k < |replies| && replies[k].Tree?
    ensures OfRepository(Gathered(replies), replies[k].repository.fullName) == TreeItems(replies[k])
    decreases |replies|
  {
    var n := |replies| - 1;
    if k == n {
      TreeIsLast(replies);
    } else {
      var front := replies[..n];
      assert forall i | 0 <= i < n :: front[i] == replies[i];
      GatheredPerRepository(front, k);
      TreeIsEarlier(replies, replies[k].repository.fullName);
    }
  }

  lemma {:induction false} NoTreeNoItems(replies: seq<TreeReply>, f: string)
    requires forall i | 0 <= i < |replies| && replies[i].Tree? :: replies[i].repository.fullName != f
    ensures OfRepository(Gathered(replies), f) == []
  {
    if replies != [] {
      var n := |replies| - 1;
      assert forall i | 0 <= i < n :: replies[..n][i] == replies[i];
      NoTreeNoItems(replies[..n], f);
      GatheredOneMore(replies, f);
      ReplyPerRepository(replies[n], f);
    }
  }

  lemma SameRepositoryItems(p: seq<TreeReply>, q: seq<TreeReply>, f: string)
    requires OneTreeEach(p) && OneTreeEach(q) && multiset(p) == multiset(q)
    ensures OfRepository(Gathered(p), f) == OfRepository(Gathered(q), f)
  {
    if k :| 0 <= k < |p| && p[k].Tree? && p[k].repository.fullName == f {
      GatheredPerRepository(p, k);
      assert p[k] in multiset(q);
      var m :| 0 <= m < |q| && q[m] == p[k];
      GatheredPerRepository(q, m);
    } else {
      NoTreeNoItems(p, f);
      forall i | 0 <= i < |q| && q[i].Tree?
        ensures q[i].repository.fullName != f
      {
        assert q[i] in multiset(p);
      }
      NoTreeNoItems(q, f);
    }
  }

  lemma {:induction false} CountedInRepository(items: seq<Item>, x: Item)
    ensures multiset(items)[x] == multiset(OfRepository(items, x.fullName))[x]
  {
    if items != [] {
      CountedInRepository(items[..|items| - 1], x);
      assert items == items[..|items| - 1] + [items[|items| - 1]];
    }
  }

  /** Lists that agree on every repository are filtered alike. */
  lemma KeptAlike(id: Item -> string, freshIds: set<string>, seen: set<string>, p: seq<Item>, q: seq<Item>)
    requires Separates(id) && forall f :: OfRepository(p, f) == OfRepository(q, f)
    ensures var kept, kept' := Keep(id, freshIds, seen, p), Keep(id, freshIds, seen, q);
      && multiset(kept) == multiset(kept')
      && forall f :: OfRepository(kept, f) == OfRepository(kept', f)
  {
    var kept, kept' := Keep(id, freshIds, seen, p), Keep(id, freshIds, seen, q);
    forall f
      ensures OfRepository(kept, f) == OfRepository(kept', f)
    {
      KeepPerRepository(id, freshIds, seen, p, f);
      KeepPerRepository(id, freshIds, seen, q, f);
    }
    forall x: Item
      ensures multiset(kept)[x] == multiset(kept')[x]
    {
      CountedInRepository(kept, x);
      CountedInRepository(kept', x);
    }
  }

  /** The trees of one pass, completed in another order; each repository at most once. */
  ghost predicate Reordered(p: seq<TreeReply>, q: seq<TreeReply>) {
    OneTreeEach(p) && OneTreeEach(q) && multiset(p) == multiset(q)
  }

  /** Schedule independence of a pass: in whatever order its trees are completed, the same items are kept,
      and those of each repository in the same order. */
  lemma KeptWhateverTheOrder(id: Item -> string, freshIds: set<string>, seen: set<string>, p: seq<TreeReply>,
                             q: seq<TreeReply>)
    requires Separates(id) && Reordered(p, q)
    ensures var kept, kept' := Keep(id, freshIds, seen, Gathered(p)), Keep(id, freshIds, seen, Gathered(q));
      && multiset(kept) == multiset(kept')
      && forall f :: OfRepository(kept, f) == OfRepository(kept', f)
  {
    forall f
      ensures OfRepository(Gathered(p), f) == OfRepository(Gathered(q), f)
    {
      SameRepositoryItems(p, q, f);
    }
    KeptAlike(id, freshIds, seen, Gathered(p), Gathered(q));
  }

  // --- The winner ---------------------------------------------------------------------------------------------

  predicate Earlier(a: Item, b: Item) {
    Depth(a.path) < Depth(b.path) || (Depth(a.path) == Depth(b.path) && Less(a.path, b.path))
  }

  lemma DepthOrder()
    ensures WeakOrder(DepthLess)
  {
    forall x: TreeEntry, y: TreeEntry
      ensures DepthLess(x, y) ==> !DepthLess(y, x)
    {
      if Less(x.path, y.path) {
        LessAsymmetric(x.path, y.path);
      }
    }
    forall x: TreeEntry, y: TreeEntry, z: TreeEntry
      ensures !DepthLess(y, x) && !DepthLess(z, y) ==> !DepthLess(z, x)
    {
      if Less(z.path, x.path) && !Less(y.path, x.path) && !Less(z.path, y.path) && y.path != z.path {
        LessTotal(y.path, z.path);
        LessTransitive(y.path, z.path, x.path);
      }
    }
  }

  /** The skill files of a sorted tree are sorted too. */
  lemma {:induction false} SkillFilesSorted(repository: Repository, entries: seq<TreeEntry>)
    requires Sorted(DepthLess, entries)
    ensures Sorted(Earlier, SkillFiles(repository, entries))
    ensures forall x | x in SkillFiles(repository, entries) ::
      exists k | 0 <= k < |entries| :: x == ItemOf(repository, entries[k])
  {
    if entries != [] {
      var n := |entries| - 1;
      var front := entries[..n];
      assert forall k | 0 <= k < n :: front[k] == entries[k];
      SkillFilesSorted(repository, front);
      var files, last := SkillFiles(repository, front), ItemOf(repository, entries[n]);
      forall i | 0 <= i < |files|
        ensures !Earlier(last, files[i])
      {
        assert files[i] in files;
        var k :| 0 <= k < n && files[i] == ItemOf(repository, front[k]);
        assert !DepthLess(entries[n], entries[k]);
      }
      assert last == ItemOf(repository, entries[n]);
      forall x | x in SkillFiles(repository, entries)
        ensures exists k | 0 <= k < |entries| :: x == ItemOf(repository, entries[k])
      {
        if x in files {
          var k :| 0 <= k < n && x == ItemOf(repository, front[k]);
          assert x == ItemOf(repository, entries[k]);
        }
      }
    }
  }

  /** A kept item comes before every other item with its identity. */
  lemma {:induction false} KeptIsFirst(id: Item -> string, freshIds: set<string>, seen: set<string>, items: seq<Item>,
                                       x: Item, j: nat)
    requires Sorted(Earlier, items) && x in Keep(id, freshIds, seen, items)
    requires j < |items| && id(items[j]) == id(x)
    ensures items[j] == x || !Earlier(items[j], x)
    decreases |items|
  {
    var n := |items| - 1;
    var front := items[..n];
    assert forall k | 0 <= k < n :: front[k] == items[k];
    KeepIsFilter(id, freshIds, seen, front);
    if x in Keep(id, freshIds, seen, front) {
      if j < n {
        KeptIsFirst(id, freshIds, seen, front, x, j);
      } else {
        var k :| 0 <= k < n && front[k] == x;
        assert !Earlier(items[n], items[k]);
      }
    } else {
      assert x == items[n];
      IdsHold(id, front);
    }
  }

  lemma {:induction false} GatheredComesFrom(replies: seq<TreeReply>, y: Item) returns (k: nat)
    requires y in Gathered(replies)
    ensures k < |replies| && replies[k].Tree? && replies[k].repository.fullName == y.fullName
      && y in TreeItems(replies[k])
  {
    var n := |replies| - 1;
    if y in TreeItems(replies[n]) {
      k := n;
      SkillFilesOwn(replies[n].repository, SortBy(DepthLess, replies[n].entries));
    } else {
      k := GatheredComesFrom(replies[..n], y);
    }
  }

  /** Among the files of a pass with the same identity, the one that is kept is the shallowest, and the
      first by path among those of that depth. */
  lemma WinnerIsShallowest(id: Item -> string, freshIds: set<string>, seen: set<string>, replies: seq<TreeReply>,
                           x: Item, y: Item)
    requires Separates(id) && OneTreeEach(replies)
    requires x in Keep(id, freshIds, seen, Gathered(replies)) && y in Gathered(replies) && id(y) == id(x)
    ensures y == x || !Earlier(y, x)
  {
    var k := GatheredComesFrom(replies, y);
    var f, tree := x.fullName, TreeItems(replies[k]);
    GatheredPerRepository(replies, k);
    KeepPerRepository(id, freshIds, seen, Gathered(replies), f);
    OfRepositoryIs(Keep(id, freshIds, seen, Gathered(replies)), f);
    DepthOrder();
    SortSorts(DepthLess, replies[k].entries);
    SkillFilesSorted(replies[k].repository, SortBy(DepthLess, replies[k].entries));
    var j :| 0 <= j < |tree| && tree[j] == y;
    KeptIsFirst(id, freshIds, seen, tree, x, j);
  }

  // --- The metadata of official repositories ---------------------------------------------------------------------

  predicate NameLess(a: Repository, b: Repository) {
    Less(a.fullName, b.fullName)
  }

  function Loaded(replies: seq<MetadataReply>): seq<Repository> {
    if replies == [] then []
    else
      var front, reply := Loaded(replies[..|replies| - 1]), replies[|replies| - 1];
      if reply.Metadata? then front + [reply.repository] else front
  }

  // What a complete discovery looks at: every skill file of every page, pass after pass. A search is
  // followed for `limit` pages at most, ten in the program.

  function OfficialItems(net: Network): seq<Item> {
    var repositories := SortBy(NameLess, Loaded(net.metadata));
    if repositories == [] then [] else Gathered(net.trees(repositories))
  }

  /** What a page of a search contributes, and whether another one follows. */
  datatype PageView = PageView(items: seq<Item>, more: bool)

  /** The items of a search from its n-th page on. */
  function Followed(view: nat -> PageView, limit: nat, n: nat): seq<Item>
    decreases limit + 1 - n
  {
    if n > limit then [] else view(n).items + (if view(n).more then Followed(view, limit, n + 1) else [])
  }

  function PopularView(net: Network): nat -> PageView {
    (n: nat) => match net.popular(n)
      case SearchFailed(_) => PageView([], false)
      case Repositories(trees, results, total) => PageView(Gathered(trees), !LastPage(n, results, total))
  }

  function CodeView(net: Network, filename: string): nat -> PageView {
    (n: nat) => match net.code(filename, n)
      case CodeSearchFailed => PageView([], false)
      case Code(items, total) => PageView(Named(items, filename), !LastPage(n, |items|, total))
  }

  function PopularItems(net: Network, limit: nat, n: nat): seq<Item> {
    Followed(PopularView(net), limit, n)
  }

  function Named(items: seq<Item>, filename: string): seq<Item> {
    if items == [] then []
    else
      var front, item := Named(items[..|items| - 1], filename), items[|items| - 1];
      if BaseOf(item.path) == filename then front + [item] else front
  }

  function CodeItems(net: Network, limit: nat, filename: string, n: nat): seq<Item> {
    Followed(CodeView(net, filename), limit, n)
  }

  lemma PopularPage(net: Network, limit: nat, n: nat)
    requires n <= limit && net.popular(n).Repositories?
    ensures var page := net.popular(n);
      PopularItems(net, limit, n) == Gathered(page.trees)
        + (if LastPage(n, page.results, page.total) then [] else PopularItems(net, limit, n + 1))
  {
  }

  lemma CodePageItems(net: Network, limit: nat, filename: string, n: nat)
    requires n <= limit && net.code(filename, n).Code?
    ensures var page := net.code(filename, n);
      CodeItems(net, limit, filename, n) == Named(page.items, filename)
        + (if LastPage(n, |page.items|, page.total) then [] else CodeItems(net, limit, filename, n + 1))
  {
  }

  function AllItems(net: Network, limit: nat): seq<Item> {
    OfficialItems(net) + PopularItems(net, limit, 1) + CodeItems(net, limit, "SKILL.md", 1)
      + CodeItems(net, limit, "SKILLS.md", 1)
  }

  lemma LoadedIsSorted(replies: seq<MetadataReply>)
    ensures var repositories := SortBy(NameLess, Loaded(replies));
      && (forall i, j | 0 <= i < j < |repositories| :: !Less(repositories[j].fullName, repositories[i].fullName))
      && (forall r :: multiset(repositories)[r] == multiset(replies)[Metadata(r)])
  {
    var repositories := SortBy(NameLess, Loaded(replies));
    NameOrder();
    SortSorts(NameLess, Loaded(replies));
    SortPermutes(NameLess, Loaded(replies));
    forall i, j | 0 <= i < j < |repositories|
      ensures !Less(repositories[j].fullName, repositories[i].fullName)
    {
      assert !NameLess(repositories[j], repositories[i]);
    }
    forall r: Repository
      ensures multiset(repositories)[r] == multiset(replies)[Metadata(r)]
    {
      LoadedCounts(replies, r);
    }
  }

  /** Collects the metadata in the order of completion and sorts it by name. */
  method CollectMetadata(replies: seq<MetadataReply>) returns (repositories: seq<Repository>, aborted: bool)
    ensures aborted <==> MetadataFailed(true) in replies
    ensures !aborted ==> repositories == SortBy(NameLess, Loaded(replies))
    ensures !aborted ==>
      && (forall i, j | 0 <= i < j < |repositories| :: !Less(repositories[j].fullName, repositories[i].fullName))
      && (forall r :: multiset(repositories)[r] == multiset(replies)[Metadata(r)])
  {
    repositories := [];
    for k := 0 to |replies|
      invariant repositories == Loaded(replies[..k])
      invariant MetadataFailed(true) !in replies[..k]
    {
      assert replies[..k + 1] == replies[..k] + [replies[k]];
      match replies[k] {
        case MetadataFailed(aborts) =>
          if aborts {
            return [], true;
          }
        case LowStars =>
        case Metadata(repository) => repositories := repositories + [repository];
      }
    }
    assert replies[..|replies|] == replies;
    repositories, aborted := SortBy(NameLess, repositories), false;
    LoadedIsSorted(replies);
  }

  lemma {:induction false} LoadedCounts(replies: seq<MetadataReply>, r: Repository)
    ensures multiset(Loaded(replies))[r] == multiset(replies)[Metadata(r)]
  {
    if replies != [] {
      LoadedCounts(replies[..|replies| - 1], r);
      assert replies == replies[..|replies| - 1] + [replies[|replies| - 1]];
    }
  }

  /** The order in which metadata arrives does not show. */
  lemma MetadataWhateverTheOrder(p: seq<MetadataReply>, q: seq<MetadataReply>)
    requires multiset(p) == multiset(q)
    requires forall a, b | Metadata(a) in p && Metadata(b) in p && a.fullName == b.fullName :: a == b
    ensures SortBy(NameLess, Loaded(p)) == SortBy(NameLess, Loaded(q))
  {
    var r, r' := SortBy(NameLess, Loaded(p)), SortBy(NameLess, Loaded(q));
    NameOrder();
    SortSorts(NameLess, Loaded(p));
    SortSorts(NameLess, Loaded(q));
    SortPermutes(NameLess, Loaded(p));
    SortPermutes(NameLess, Loaded(q));
    forall x: Repository
      ensures multiset(r)[x] == multiset(r')[x]
    {
      LoadedCounts(p, x);
      LoadedCounts(q, x);
    }
    forall x, y | x in r && y in r && x != y
      ensures NameLess(x, y) || NameLess(y, x)
    {
      assert x in multiset(r) && y in multiset(r);
      LoadedCounts(p, x);
      LoadedCounts(p, y);
      assert Metadata(x) in multiset(p) && Metadata(y) in multiset(p);
      LessTotal(x.fullName, y.fullName);
    }
    SortedUnique(NameLess, r, r');
  }

  lemma NameOrder()
    ensures WeakOrder(NameLess)
  {
    forall x: Repository, y: Repository
      ensures NameLess(x, y) ==> !NameLess(y, x)
    {
      if Less(x.fullName, y.fullName) {
        LessAsymmetric(x.fullName, y.fullName);
      }
    }
    forall x: Repository, y: Repository, z: Repository
      ensures !NameLess(y, x) && !NameLess(z, y) ==> !NameLess(z, x)
    {
      if Less(z.fullName, x.fullName) && !NameLess(y, x) && !NameLess(z, y) && y.fullName != z.fullName {
        LessTotal(y.fullName, z.fullName);
        LessTransitive(y.fullName, z.fullName, x.fullName);
      }
    }
  }

  // --- The whole stream, whatever the order of completion -------------------------------------------------------

  ghost predicate SamePage(p: RepositoryPage, q: RepositoryPage) {
    match p
    case SearchFailed(_) => q == p
    case Repositories(trees, results, total) =>
      q.Repositories? && q.results == results && q.total == total && Reordered(trees, q.trees)
  }

  /** The same answers, but metadata and trees complete in another order. */
  ghost predicate SameAnswers(p: Network, q: Network) {
    && multiset(p.metadata) == multiset(q.metadata)
    && (forall a, b | Metadata(a) in p.metadata && Metadata(b) in p.metadata && a.fullName == b.fullName :: a == b)
    && (var repositories := SortBy(NameLess, Loaded(p.metadata));
        Reordered(p.trees(repositories), q.trees(repositories)))
    && (forall n :: SamePage(p.popular(n), q.popular(n)))
    && (forall f, n :: p.code(f, n) == q.code(f, n))
  }

  lemma OfficialAlike(p: Network, q: Network, f: string)
    requires SameAnswers(p, q)
    ensures OfRepository(OfficialItems(p), f) == OfRepository(OfficialItems(q), f)
  {
    MetadataWhateverTheOrder(p.metadata, q.metadata);
    var repositories := SortBy(NameLess, Loaded(p.metadata));
    SameRepositoryItems(p.trees(repositories), q.trees(repositories), f);
  }

  lemma PairAlike(a: seq<Item>, b: seq<Item>, a': seq<Item>, b': seq<Item>, f: string)
    requires OfRepository(a, f) == OfRepository(a', f) && OfRepository(b, f) == OfRepository(b', f)
    ensures OfRepository(a + b, f) == OfRepository(a' + b', f)
  {
    OfRepositoryConcat(a, b, f);
    OfRepositoryConcat(a', b', f);
  }

  ghost predicate AlikeFor(p: PageView, q: PageView, f: string) {
    p.more == q.more && OfRepository(p.items, f) == OfRepository(q.items, f)
  }

  lemma FollowedOnce(view: nat -> PageView, limit: nat, n: nat)
    requires n <= limit
    ensures Followed(view, limit, n) ==
      view(n).items + (if view(n).more then Followed(view, limit, n + 1) else [])
  {
  }

  lemma {:induction false} FollowedAlike(p: nat -> PageView, q: nat -> PageView, limit: nat, n: nat, f: string)
    requires forall k: nat :: AlikeFor(p(k), q(k), f)
    ensures OfRepository(Followed(p, limit, n), f) == OfRepository(Followed(q, limit, n), f)
    decreases limit + 1 - n
  {
    if n <= limit {
      assert AlikeFor(p(n), q(n), f);
      FollowedAlike(p, q, limit, n + 1, f);
      FollowedOnce(p, limit, n);
      FollowedOnce(q, limit, n);
      RestAlike(p(n), q(n), Followed(p, limit, n + 1), Followed(q, limit, n + 1), f);
    }
  }

  lemma RestAlike(p: PageView, q: PageView, rest: seq<Item>, rest': seq<Item>, f: string)
    requires AlikeFor(p, q, f) && OfRepository(rest, f) == OfRepository(rest', f)
    ensures OfRepository(p.items + (if p.more then rest else []), f)
         == OfRepository(q.items + (if q.more then rest' else []), f)
  {
    if p.more {
      PairAlike(p.items, rest, q.items, rest', f);
    } else {
      assert p.items + [] == p.items && q.items + [] == q.items;
    }
  }

  lemma PopularAlike(p: Network, q: Network, limit: nat, f: string)
    requires SameAnswers(p, q)
    ensures OfRepository(PopularItems(p, limit, 1), f) == OfRepository(PopularItems(q, limit, 1), f)
  {
    forall k: nat
      ensures AlikeFor(PopularView(p)(k), PopularView(q)(k), f)
    {
      assert SamePage(p.popular(k), q.popular(k));
      if p.popular(k).Repositories? {
        SameRepositoryItems(p.popular(k).trees, q.popular(k).trees, f);
      }
    }
    FollowedAlike(PopularView(p), PopularView(q), limit, 1, f);
  }

  lemma CodeAlike(p: Network, q: Network, limit: nat, filename: string, f: string)
    requires forall f, k :: p.code(f, k) == q.code(f, k)
    ensures OfRepository(CodeItems(p, limit, filename, 1), f) == OfRepository(CodeItems(q, limit, filename, 1), f)
  {
    forall k: nat
      ensures AlikeFor(CodeView(p, filename)(k), CodeView(q, filename)(k), f)
    {
      assert p.code(filename, k) == q.code(filename, k);
    }
    FollowedAlike(CodeView(p, filename), CodeView(q, filename), limit, 1, f);
  }

  lemma ItemsAlike(p: Network, q: Network, limit: nat, f: string)
    requires SameAnswers(p, q)
    ensures OfRepository(AllItems(p, limit), f) == OfRepository(AllItems(q, limit), f)
  {
    OfficialAlike(p, q, f);
    PopularAlike(p, q, limit, f);
    CodeAlike(p, q, limit, "SKILL.md", f);
    CodeAlike(p, q, limit, "SKILLS.md", f);
    FourAlike(OfficialItems(p), PopularItems(p, limit, 1), CodeItems(p, limit, "SKILL.md", 1),
              CodeItems(p, limit, "SKILLS.md", 1),
              OfficialItems(q), PopularItems(q, limit, 1), CodeItems(q, limit, "SKILL.md", 1),
              CodeItems(q, limit, "SKILLS.md", 1), f);
  }

  lemma FourAlike(a: seq<Item>, b: seq<Item>, c: seq<Item>, d: seq<Item>, a': seq<Item>, b': seq<Item>, c': seq<Item>,
                  d': seq<Item>, f: string)
    requires OfRepository(a, f) == OfRepository(a', f) && OfRepository(b, f) == OfRepository(b', f)
    requires OfRepository(c, f) == OfRepository(c', f) && OfRepository(d, f) == OfRepository(d', f)
    ensures OfRepository(a + b + c + d, f) == OfRepository(a' + b' + c' + d', f)
  {
    PairAlike(a, b, a', b', f);
    PairAlike(a + b, c, a' + b', c', f);
    PairAlike(a + b + c, d, a' + b' + c', d', f);
  }

  /** Schedule independence of the whole stream: with the seen identities carried through all passes and
      pages, the same items are fetched whatever completes first, those of each repository in the same
      order. */
  lemma StreamWhateverTheOrder(id: Item -> string, freshIds: set<string>, p: Network, q: Network, limit: nat)
    requires Separates(id) && SameAnswers(p, q)
    ensures var kept, kept' := Keep(id, freshIds, {}, AllItems(p, limit)), Keep(id, freshIds, {}, AllItems(q, limit));
      && multiset(kept) == multiset(kept')
      && forall f :: OfRepository(kept, f) == OfRepository(kept', f)
  {
    forall f
      ensures OfRepository(AllItems(p, limit), f) == OfRepository(AllItems(q, limit), f)
    {
      ItemsAlike(p, q, limit, f);
    }
    KeptAlike(id, freshIds, {}, AllItems(p, limit), AllItems(q, limit));
  }

  // --- What a complete discovery looks at, in plain words ---------------------------------------------------------

  /** The item of a blob named SKILL.md or SKILLS.md, at any path of a repository's tree. */
  ghost predicate InTree(repository: Repository, entries: seq<TreeEntry>, x: Item) {
    exists k | 0 <= k < |entries| :: SkillBlob(repository, entries[k], x)
  }

  predicate SkillBlob(repository: Repository, entry: TreeEntry, x: Item) {
    && entry.kind == "blob" && (BaseOf(entry.path) == "SKILL.md" || BaseOf(entry.path) == "SKILLS.md")
    && x == Item(entry.path, entry.url, repository.fullName, repository.stars)
  }

  ghost predicate InTrees(replies: seq<TreeReply>, x: Item) {
    exists k | 0 <= k < |replies| :: replies[k].Tree? && InTree(replies[k].repository, replies[k].entries, x)
  }

  /** The ranked search gets to its n-th page: all pages before it are full and not the last ones. */
  ghost predicate PopularReached(net: Network, n: nat) {
    forall k | 1 <= k < n ::
      net.popular(k).Repositories? && net.popular(k).results >= 100 && k * 100 < net.popular(k).total
  }

  ghost predicate CodeReached(net: Network, filename: string, n: nat) {
    forall k | 1 <= k < n ::
      net.code(filename, k).Code? && |net.code(filename, k).items| >= 100 && k * 100 < net.code(filename, k).total
  }

  ghost predicate OfferedByRanking(net: Network, n: nat, x: Item) {
    PopularReached(net, n) && net.popular(n).Repositories? && InTrees(net.popular(n).trees, x)
  }

  ghost predicate OfferedByCode(net: Network, filename: string, n: nat, x: Item) {
    && CodeReached(net, filename, n) && net.code(filename, n).Code?
    && x in net.code(filename, n).items && BaseOf(x.path) == filename
  }

  ghost predicate OfferedAsOfficial(net: Network, x: Item) {
    var repositories := SortBy(NameLess, Loaded(net.metadata));
    repositories != [] && InTrees(net.trees(repositories), x)
  }

  /** The item is on some page that a discovery following searches for `limit` pages gets to. */
  ghost predicate Offered(net: Network, limit: nat, x: Item) {
    || OfferedAsOfficial(net, x)
    || (exists n :: 1 <= n <= limit && OfferedByRanking(net, n, x))
    || (exists n :: 1 <= n <= limit && OfferedByCode(net, "SKILL.md", n, x))
    || (exists n :: 1 <= n <= limit && OfferedByCode(net, "SKILLS.md", n, x))
  }

  lemma {:induction false} SkillFilesAre(repository: Repository, entries: seq<TreeEntry>, x: Item)
    ensures x in SkillFiles(repository, entries) <==> InTree(repository, entries, x)
  {
    if entries != [] {
      var n := |entries| - 1;
      var front := entries[..n];
      SkillFilesAre(repository, front, x);
      if k :| 0 <= k < n && SkillBlob(repository, front[k], x) {
        assert SkillBlob(repository, entries[k], x);
      }
      if k :| 0 <= k < |entries| && SkillBlob(repository, entries[k], x) {
        if k < n {
          assert SkillBlob(repository, front[k], x);
        }
      }
    }
  }

  /** Every skill file of a tree is among its items, and nothing else. */
  lemma TreeItemsAre(repository: Repository, entries: seq<TreeEntry>, x: Item)
    ensures x in TreeItems(Tree(repository, entries)) <==> InTree(repository, entries, x)
  {
    var sorted := SortBy(DepthLess, entries);
    SkillFilesAre(repository, sorted, x);
    SortPermutes(DepthLess, entries);
    if k :| 0 <= k < |sorted| && SkillBlob(repository, sorted[k], x) {
      assert sorted[k] in multiset(entries);
      var m :| 0 <= m < |entries| && entries[m] == sorted[k];
      assert SkillBlob(repository, entries[m], x);
    }
    if k :| 0 <= k < |entries| && SkillBlob(repository, entries[k], x) {
      assert entries[k] in multiset(sorted);
      var m :| 0 <= m < |sorted| && sorted[m] == entries[k];
      assert SkillBlob(repository, sorted[m], x);
    }
  }

  lemma InTreesMore(front: seq<TreeReply>, last: TreeReply, x: Item)
    ensures InTrees(front + [last], x) <==>
      InTrees(front, x) || (last.Tree? && InTree(last.repository, last.entries, x))
  {
    var all := front + [last];
    if k :| 0 <= k < |front| && front[k].Tree? && InTree(front[k].repository, front[k].entries, x) {
      assert all[k] == front[k];
    }
    if last.Tree? && InTree(last.repository, last.entries, x) {
      assert all[|front|] == last;
    }
  }

  lemma {:induction false} GatheredAre(replies: seq<TreeReply>, x: Item)
    ensures x in Gathered(replies) <==> InTrees(replies, x)
  {
    if replies != [] {
      var front, last := replies[..|replies| - 1], replies[|replies| - 1];
      GatheredAre(front, x);
      if last.Tree? {
        TreeItemsAre(last.repository, last.entries, x);
      }
      InTreesMore(front, last, x);
      assert replies == front + [last];
    }
  }

  lemma {:induction false} NamedAre(items: seq<Item>, filename: string, x: Item)
    ensures x in Named(items, filename) <==> x in items && BaseOf(x.path) == filename
  {
    if items != [] {
      NamedAre(items[..|items| - 1], filename, x);
      assert items == items[..|items| - 1] + [items[|items| - 1]];
    }
  }

  /** Between two pages of a search there is always a next one. */
  ghost predicate Continued(view: nat -> PageView, n: nat, m: nat) {
    forall k | n <= k < m :: view(k).more
  }

  ghost predicate OnPage(view: nat -> PageView, n: nat, m: nat, x: Item) {
    Continued(view, n, m) && x in view(m).items
  }

  lemma {:induction false} FollowedFrom(view: nat -> PageView, limit: nat, n: nat, x: Item) returns (m: nat)
    requires x in Followed(view, limit, n)
    ensures n <= m <= limit && OnPage(view, n, m, x)
    decreases limit + 1 - n
  {
    if x in view(n).items {
      m := n;
    } else {
      m := FollowedFrom(view, limit, n + 1, x);
    }
  }

  lemma {:induction false} FollowedTo(view: nat -> PageView, limit: nat, n: nat, m: nat, x: Item)
    requires n <= m <= limit && OnPage(view, n, m, x)
    ensures x in Followed(view, limit, n)
    decreases m - n
  {
    if n < m {
      FollowedTo(view, limit, n + 1, m, x);
    }
  }

  lemma FollowedAre(view: nat -> PageView, limit: nat, n: nat, x: Item)
    ensures x in Followed(view, limit, n) <==> exists m: nat :: n <= m <= limit && OnPage(view, n, m, x)
  {
    if x in Followed(view, limit, n) {
      var m := FollowedFrom(view, limit, n, x);
    }
    if m: nat :| n <= m <= limit && OnPage(view, n, m, x) {
      FollowedTo(view, limit, n, m, x);
    }
  }

  lemma PopularPageIs(net: Network, n: nat, x: Item)
    requires n >= 1
    ensures Continued(PopularView(net), 1, n) <==> PopularReached(net, n)
    ensures x in PopularView(net)(n).items <==> net.popular(n).Repositories? && InTrees(net.popular(n).trees, x)
  {
    assert forall k: nat :: PopularView(net)(k).more <==>
      net.popular(k).Repositories? && net.popular(k).results >= 100 && k * 100 < net.popular(k).total;
    if net.popular(n).Repositories? {
      GatheredAre(net.popular(n).trees, x);
    }
  }

  lemma CodePageIs(net: Network, filename: string, n: nat, x: Item)
    requires n >= 1
    ensures Continued(CodeView(net, filename), 1, n) <==> CodeReached(net, filename, n)
    ensures x in CodeView(net, filename)(n).items <==>
      net.code(filename, n).Code? && x in net.code(filename, n).items && BaseOf(x.path) == filename
  {
    assert forall k: nat :: CodeView(net, filename)(k).more <==>
      net.code(filename, k).Code? && |net.code(filename, k).items| >= 100 && k * 100 < net.code(filename, k).total;
    if net.code(filename, n).Code? {
      NamedAre(net.code(filename, n).items, filename, x);
    }
  }

  lemma PopularItemsAre(net: Network, limit: nat, x: Item)
    ensures x in PopularItems(net, limit, 1) <==> exists n :: 1 <= n <= limit && OfferedByRanking(net, n, x)
  {
    FollowedAre(PopularView(net), limit, 1, x);
    forall n: nat | n >= 1
      ensures OfferedByRanking(net, n, x) <==>
        OnPage(PopularView(net), 1, n, x)
    {
      PopularPageIs(net, n, x);
    }
  }

  lemma CodeItemsAre(net: Network, limit: nat, filename: string, x: Item)
    ensures x in CodeItems(net, limit, filename, 1) <==>
      exists n :: 1 <= n <= limit && OfferedByCode(net, filename, n, x)
  {
    FollowedAre(CodeView(net, filename), limit, 1, x);
    forall n: nat | n >= 1
      ensures OfferedByCode(net, filename, n, x) <==>
        OnPage(CodeView(net, filename), 1, n, x)
    {
      CodePageIs(net, filename, n, x);
    }
  }

  /** A complete discovery looks at exactly the skill files of the official repositories' trees, of the
      trees on every page of the ranked search that it gets to, and of every such page of code search. */
  lemma AllItemsAreOffered(net: Network, limit: nat, x: Item)
    ensures x in AllItems(net, limit) <==> Offered(net, limit, x)
  {
    PopularItemsAre(net, limit, x);
    CodeItemsAre(net, limit, "SKILL.md", x);
    CodeItemsAre(net, limit, "SKILLS.md", x);
    GatheredAre(net.trees(SortBy(NameLess, Loaded(net.metadata))), x);
  }

  /** What it fetches: items that are offered and not fresh, one of each such identity. */
  ghost predicate FetchedFrom(id: Item -> string, freshIds: set<string>, net: Network, limit: nat, fetched: seq<Item>) {
    && DistinctItems(id, fetched)
    && (forall x | x in fetched :: Offered(net, limit, x) && id(x) !in freshIds)
    && (forall x | Offered(net, limit, x) && id(x) !in freshIds :: exists y :: y in fetched && id(y) == id(x))
  }

  lemma FetchedIsOffered(id: Item -> string, freshIds: set<string>, net: Network, limit: nat)
    ensures FetchedFrom(id, freshIds, net, limit, Keep(id, freshIds, {}, AllItems(net, limit)))
  {
    var items := AllItems(net, limit);
    var fetched := Keep(id, freshIds, {}, items);
    KeepIsFilter(id, freshIds, {}, items);
    forall x | x in fetched
      ensures Offered(net, limit, x) && id(x) !in freshIds
    {
      AllItemsAreOffered(net, limit, x);
    }
    forall x | Offered(net, limit, x) && id(x) !in freshIds
      ensures exists y :: y in fetched && id(y) == id(x)
    {
      AllItemsAreOffered(net, limit, x);
      assert id(x) in Ids(id, items);
      assert id(x) in Ids(id, fetched);
    }
  }

  /** Of the items with one identity, a list of pages keeps the one that comes first. */
  lemma EarlierPartWins(id: Item -> string, freshIds: set<string>, seen: set<string>, p: seq<Item>, q: seq<Item>,
                        x: Item, y: Item)
    requires x in p && y in Keep(id, freshIds, seen, p + q) && id(x) == id(y)
    ensures y in p
  {
    KeepConcat(id, freshIds, seen, p, q);
    KeepIsFilter(id, freshIds, seen, p);
    KeepIsFilter(id, freshIds, seen + Ids(id, p), q);
    assert id(x) in Ids(id, p);
  }

  lemma FirstOfFourWins(id: Item -> string, freshIds: set<string>, a: seq<Item>, b: seq<Item>, c: seq<Item>,
                        d: seq<Item>, all: seq<Item>, x: Item, y: Item)
    requires all == a + b + c + d && y in Keep(id, freshIds, {}, all) && id(x) == id(y)
    ensures x in a ==> y in a
    ensures x in b ==> y in a || y in b
    ensures x in c ==> y in a || y in b || y in c
  {
    assert all == a + (b + c + d) && all == (a + b) + (c + d);
    if x in a {
      EarlierPartWins(id, freshIds, {}, a, b + c + d, x, y);
    } else if x in b {
      EarlierPartWins(id, freshIds, {}, a + b, c + d, x, y);
    } else if x in c {
      EarlierPartWins(id, freshIds, {}, a + b + c, d, x, y);
    }
  }

  lemma PassesAre(net: Network, limit: nat, x: Item)
    ensures x in OfficialItems(net) <==> OfferedAsOfficial(net, x)
    ensures x in PopularItems(net, limit, 1) <==> exists n :: 1 <= n <= limit && OfferedByRanking(net, n, x)
    ensures x in CodeItems(net, limit, "SKILL.md", 1) <==>
      exists n :: 1 <= n <= limit && OfferedByCode(net, "SKILL.md", n, x)
  {
    GatheredAre(net.trees(SortBy(NameLess, Loaded(net.metadata))), x);
    PopularItemsAre(net, limit, x);
    CodeItemsAre(net, limit, "SKILL.md", x);
  }

  /** Passes come in this order: what an official repository offers is not fetched from a ranked page or from
      code search instead, and what a ranked page offers not from code search. */
  lemma EarlierPassWins(id: Item -> string, freshIds: set<string>, net: Network, limit: nat, x: Item, y: Item)
    requires y in Keep(id, freshIds, {}, AllItems(net, limit)) && id(x) == id(y)
    ensures OfferedAsOfficial(net, x) ==> OfferedAsOfficial(net, y)
    ensures (exists n :: 1 <= n <= limit && OfferedByRanking(net, n, x)) ==>
      OfferedAsOfficial(net, y) || exists n :: 1 <= n <= limit && OfferedByRanking(net, n, y)
    ensures (exists n :: 1 <= n <= limit && OfferedByCode(net, "SKILL.md", n, x)) ==>
      || OfferedAsOfficial(net, y) || (exists n :: 1 <= n <= limit && OfferedByRanking(net, n, y))
      || exists n :: 1 <= n <= limit && OfferedByCode(net, "SKILL.md", n, y)
  {
    FirstOfFourWins(id, freshIds, OfficialItems(net), PopularItems(net, limit, 1),
                    CodeItems(net, limit, "SKILL.md", 1), CodeItems(net, limit, "SKILLS.md", 1),
                    AllItems(net, limit), x, y);
    PassesAre(net, limit, x);
    PassesAre(net, limit, y);
  }
}
