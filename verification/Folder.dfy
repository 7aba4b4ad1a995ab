/** Fetching one candidate: stars, the skill file, and the files around it under a shared budget. */
module Folder {
  import opened Catalog
  import opened Orders
  import opened Identity

  const MAX_SKILL_FILES: int := 64
  const MAX_FILE_BYTES: int := 524_288
  const MAX_TOTAL_BYTES: int := 4_194_304
  const MAX_DEPTH: nat := 4

  /** Why a request failed: its rate-limit retries are exhausted, or anything else. */
  datatype RequestFault = RateLimited | OtherFault

  datatype Response<T> = Ok(value: T) | Failed(fault: RequestFault)

  /** A contents response; `decoded` is absent when it is not base64 text. Strings here are bytes. */
  datatype Raw = Raw(base64: bool, decoded: Option<string>, utf8: bool)

  datatype Entry = Entry(kind: string, path: string, url: string, size: int)

  /** What GitHub answers to the n-th request of this worker, and when its context is cancelled. */
  datatype World = World(
    stars: (nat, string) -> Response<int>,
    content: (nat, string) -> Response<Raw>,
    listing: (nat, string) -> Response<seq<Entry>>,
    cancelledFrom: Option<nat>)

  predicate Cancelled(world: World, moment: nat) {
    world.cancelledFrom.Some? && moment >= world.cancelledFrom.value
  }

  /** By this request the worker's context has not been cancelled. */
  predicate Uncancelled(world: World, moment: nat) {
    world.cancelledFrom.None? || moment < world.cancelledFrom.value
  }

  predicate MustAbort(world: World, moment: nat, fault: RequestFault) {
    Cancelled(world, moment) || fault.RateLimited?
  }

  function Total(files: seq<File>): nat {
    if files == [] then 0 else Total(files[..|files| - 1]) + |files[|files| - 1].contents|
  }

  lemma {:induction false} TotalConcat(p: seq<File>, q: seq<File>)
    ensures Total(p + q) == Total(p) + Total(q)
    decreases |q|
  {
    if q == [] {
      assert p + q == p;
    } else {
      var n := |q| - 1;
      TotalConcat(p, q[..n]);
      assert (p + q)[..|p + q| - 1] == p + q[..n];
    }
  }

  lemma TotalOne(file: File)
    ensures Total([file]) == |file.contents|
  {
    assert [file][..0] == [];
  }

  /** A decoded file is accepted if it is text of at most half a mebibyte without NUL. */
  predicate Readable(raw: Raw) {
    raw.base64 && raw.decoded.Some? && |raw.decoded.value| <= MAX_FILE_BYTES && '\0' !in raw.decoded.value && raw.utf8
  }

  predicate SmallText(file: File) {
    |file.contents| <= MAX_FILE_BYTES && file.utf8 && '\0' !in file.contents
  }

  function TrimPrefix(s: string, prefix: string): string {
    if prefix <= s then s[|prefix|..] else s
  }

  /** The path of a listed file within the skill's folder. */
  function Relative(root: string, path: string): string {
    TrimPrefix(TrimPrefix(path, root), "/")
  }

  /** Below a folder other than the repository's root, relative paths are what follows the folder. */
  lemma RelativeBelow(root: string, rest: string)
    ensures Relative(root, root + "/" + rest) == rest
  {
    var path := root + "/" + rest;
    assert path[|root|..] == "/" + rest;
    assert ("/" + rest)[1..] == rest;
  }

  /** At the root, called ".", a path is kept exactly when it does not start with a dot: a leading dot
      is taken for the folder and lost. */
  lemma RelativeAtRoot(path: string)
    requires path != "" && path[0] != '/'
    ensures Relative(".", path) == path <==> path[0] != '.'
  {
    if path[0] == '.' {
      assert "." <= path;
      assert |Relative(".", path)| < |path|;
    }
  }

  /** Two files of a repository's root can therefore end up under one name. */
  lemma DotFilesCollide()
    ensures Relative(".", ".env") == Relative(".", "env") == "env"
  {
    assert "." <= ".env" && ".env"[1..] == "env";
    RelativeAtRoot("env");
    assert "env"[0] == 'e';
  }

  /** A file that comes from a listed entry other than the skill file, with the contents served for it. */
  ghost predicate Listed(world: World, root: string, primary: string, file: File) {
    exists m: nat, endpoint: string, k: nat, n: nat ::
      && world.listing(m, endpoint).Ok?
      && k < |world.listing(m, endpoint).value|
      && Serves(world, n, world.listing(m, endpoint).value[k], root, primary, file)
  }

  predicate Serves(world: World, n: nat, entry: Entry, root: string, primary: string, file: File) {
    && entry.kind == "file" && entry.path != primary && file.path == Relative(root, entry.path)
    && world.content(n, entry.url).Ok? && Readable(world.content(n, entry.url).value)
    && file.contents == world.content(n, entry.url).value.decoded.value
  }

  /** The n-th request was for the entry's contents: they are among the files unless they could not be
      read or would not fit any more. */
  ghost predicate Tried(world: World, n: nat, entry: Entry, root: string, files: seq<File>, bytes: int) {
    var reply := world.content(n, entry.url);
    reply.Ok? && Readable(reply.value) && |reply.value.decoded.value| <= MAX_TOTAL_BYTES - bytes ==>
      File(Relative(root, entry.path), reply.value.decoded.value, true) in files
  }

  /** Nothing of an entry was passed over: a file that may be taken was tried, a folder was explored. */
  ghost predicate Covered(world: World, entry: Entry, root: string, primary: string, depth: nat, files: seq<File>,
                          bytes: int, lo: nat, hi: nat)
    requires depth <= 4
    decreases 5 - depth, 0
  {
    && (entry.kind == "file" && entry.path != primary && entry.size <= 524_288
        && entry.size <= 4_194_304 - bytes ==>
          exists n: nat :: lo <= n < hi && Tried(world, n, entry, root, files, bytes))
    && (entry.kind == "dir" ==> Explored(world, entry.url, root, primary, depth + 1, files, bytes, lo, hi))
  }

  /** The folder is too deep, or it was listed between the two moments: in vain, or with every entry covered. */
  ghost predicate Explored(world: World, endpoint: string, root: string, primary: string, depth: nat, files: seq<File>,
                           bytes: int, lo: nat, hi: nat)
    requires depth <= 5
    decreases 5 - depth, 2
  {
    depth > 4 || exists m: nat ::
      lo <= m < hi && ListedAt(world, m, endpoint, root, primary, depth, files, bytes, lo, hi)
  }

  /** The folder was listed by this request: in vain, or with every entry covered. */
  ghost predicate ListedAt(world: World, m: nat, endpoint: string, root: string, primary: string, depth: nat,
                           files: seq<File>, bytes: int, lo: nat, hi: nat)
    requires depth <= 4
    decreases 5 - depth, 1
  {
    world.listing(m, endpoint).Ok? ==>
      forall k | 0 <= k < |world.listing(m, endpoint).value| ::
        Covered(world, world.listing(m, endpoint).value[k], root, primary, depth, files, bytes, lo, hi)
  }

  ghost predicate Contains(files: seq<File>, some: seq<File>) {
    forall f | f in some :: f in files
  }

  /** More files, fewer bytes left and a wider stretch of time keep what is covered. */
  lemma CoveredLater(world: World, entry: Entry, root: string, primary: string, depth: nat, files: seq<File>,
                     bytes: int, lo: nat, hi: nat, more: seq<File>, taken: int, first: nat, last: nat)
    requires depth <= MAX_DEPTH && Contains(more, files) && bytes <= taken && first <= lo && hi <= last
    requires Covered(world, entry, root, primary, depth, files, bytes, lo, hi)
    ensures Covered(world, entry, root, primary, depth, more, taken, first, last)
    decreases MAX_DEPTH + 1 - depth, 0
  {
    if entry.kind == "file" && entry.path != primary && entry.size <= MAX_FILE_BYTES
      && entry.size <= MAX_TOTAL_BYTES - taken {
      var n: nat :| lo <= n < hi && Tried(world, n, entry, root, files, bytes);
      assert Tried(world, n, entry, root, more, taken);
    }
    if entry.kind == "dir" {
      ExploredLater(world, entry.url, root, primary, depth + 1, files, bytes, lo, hi, more, taken, first, last);
    }
  }

  lemma ExploredLater(world: World, endpoint: string, root: string, primary: string, depth: nat, files: seq<File>,
                      bytes: int, lo: nat, hi: nat, more: seq<File>, taken: int, first: nat, last: nat)
    requires depth <= MAX_DEPTH + 1 && Contains(more, files) && bytes <= taken && first <= lo && hi <= last
    requires Explored(world, endpoint, root, primary, depth, files, bytes, lo, hi)
    ensures Explored(world, endpoint, root, primary, depth, more, taken, first, last)
    decreases MAX_DEPTH + 1 - depth, 1
  {
    if depth <= MAX_DEPTH {
      var m: nat :| lo <= m < hi && ListedAt(world, m, endpoint, root, primary, depth, files, bytes, lo, hi);
      if world.listing(m, endpoint).Ok? {
        forall k | 0 <= k < |world.listing(m, endpoint).value|
          ensures Covered(world, world.listing(m, endpoint).value[k], root, primary, depth, more, taken, first, last)
        {
          CoveredLater(world, world.listing(m, endpoint).value[k], root, primary, depth, files, bytes, lo, hi, more,
                       taken, first, last);
        }
      }
      assert ListedAt(world, m, endpoint, root, primary, depth, more, taken, first, last);
    }
  }

  lemma TriedIsCovered(world: World, entry: Entry, root: string, primary: string, depth: nat, some: seq<File>,
                       bytes: int, n: nat, files: seq<File>, lo: nat, hi: nat)
    requires depth <= MAX_DEPTH && entry.kind == "file" && Contains(files, some) && lo <= n
    requires entry.path != primary && entry.size <= MAX_FILE_BYTES && entry.size <= MAX_TOTAL_BYTES - bytes ==>
      n < hi && Tried(world, n, entry, root, some, bytes)
    ensures Covered(world, entry, root, primary, depth, files, bytes, lo, hi)
  {
    if entry.path != primary && entry.size <= MAX_FILE_BYTES && entry.size <= MAX_TOTAL_BYTES - bytes {
      assert Tried(world, n, entry, root, files, bytes);
    }
  }

  /** The first `k` entries of a listing are covered. */
  ghost predicate CoveredUpTo(world: World, items: seq<Entry>, k: nat, root: string, primary: string, depth: nat,
                              files: seq<File>, bytes: int, lo: nat, hi: nat)
    requires depth <= MAX_DEPTH && k <= |items|
  {
    forall j | 0 <= j < k :: Covered(world, items[j], root, primary, depth, files, bytes, lo, hi)
  }

  lemma CoveredOneMore(world: World, items: seq<Entry>, k: nat, root: string, primary: string, depth: nat,
                       files: seq<File>, bytes: int, lo: nat, hi: nat, more: seq<File>, taken: int, last: nat)
    requires depth <= MAX_DEPTH && k < |items| && Contains(more, files) && bytes <= taken && hi <= last
    requires CoveredUpTo(world, items, k, root, primary, depth, files, bytes, lo, hi)
    requires Covered(world, items[k], root, primary, depth, more, taken, lo, last)
    ensures CoveredUpTo(world, items, k + 1, root, primary, depth, more, taken, lo, last)
  {
    forall j | 0 <= j < k
      ensures Covered(world, items[j], root, primary, depth, more, taken, lo, last)
    {
      CoveredLater(world, items[j], root, primary, depth, files, bytes, lo, hi, more, taken, lo, last);
    }
  }

  /** The same entries are covered by more files. */
  lemma CoveredByMore(world: World, items: seq<Entry>, root: string, primary: string, files: seq<File>, bytes: int,
                      lo: nat, hi: nat, more: seq<File>, taken: int)
    requires CoveredUpTo(world, items, |items|, root, primary, 0, files, bytes, lo, hi)
    requires Contains(more, files) && bytes <= taken
    ensures CoveredUpTo(world, items, |items|, root, primary, 0, more, taken, lo, hi)
  {
    forall j | 0 <= j < |items|
      ensures Covered(world, items[j], root, primary, 0, more, taken, lo, hi)
    {
      CoveredLater(world, items[j], root, primary, 0, files, bytes, lo, hi, more, taken, lo, hi);
    }
  }

  ghost predicate AllListed(world: World, root: string, primary: string, files: seq<File>) {
    forall f | f in files :: SmallText(f) && Listed(world, root, primary, f)
  }

  lemma ListedMore(world: World, root: string, primary: string, files: seq<File>, more: seq<File>)
    requires AllListed(world, root, primary, files) && AllListed(world, root, primary, more)
    ensures AllListed(world, root, primary, files + more) && Total(files + more) == Total(files) + Total(more)
    ensures files + [] == files
  {
    TotalConcat(files, more);
  }

  lemma ListedOneMore(world: World, root: string, primary: string, files: seq<File>, file: File, m: nat,
                      endpoint: string, k: nat, n: nat)
    requires AllListed(world, root, primary, files) && SmallText(file)
    requires world.listing(m, endpoint).Ok? && k < |world.listing(m, endpoint).value|
    requires Serves(world, n, world.listing(m, endpoint).value[k], root, primary, file)
    ensures AllListed(world, root, primary, files + [file]) && Total(files + [file]) == Total(files) + |file.contents|
  {
    assert Listed(world, root, primary, file);
    ListedMore(world, root, primary, files, [file]);
    TotalOne(file);
  }

  class FolderBudget {
    var files: int
    var bytes: int

    constructor (files: int, bytes: int)
      ensures this.files == files && this.bytes == bytes
    {
      this.files, this.bytes := files, bytes;
    }

    predicate Full()
      reads this
    {
      files >= MAX_SKILL_FILES || bytes >= MAX_TOTAL_BYTES
    }

    predicate Within()
      reads this
    {
      files <= MAX_SKILL_FILES && bytes <= MAX_TOTAL_BYTES
    }
  }

  /** Where the contents of a folder are listed. */
  function FolderEndpoint(base: string, fullName: string, folder: string): string {
    var contents := base + "/repos/" + fullName + "/contents";
    if folder == "." then contents else contents + "/" + TrimPrefix(folder, "/")
  }

  /** The contents of the root and of a folder below it. */
  lemma EndpointIs(base: string, fullName: string, folder: string)
    requires folder != "" && folder != "." && folder[0] != '/'
    ensures FolderEndpoint(base, fullName, ".") == base + "/repos/" + fullName + "/contents"
    ensures FolderEndpoint(base, fullName, folder) == base + "/repos/" + fullName + "/contents/" + folder
  {
    assert base + "/repos/" + fullName + "/contents" + "/" + folder
        == base + "/repos/" + fullName + ("/contents" + "/") + folder;
    assert "/contents" + "/" == "/contents/";
  }

  /** What a request for contents got: text of at most half a mebibyte in base64, without NUL. */
  predicate Served(reply: Response<Raw>) {
    && reply.Ok? && reply.value.base64 && reply.value.decoded.Some? && reply.value.utf8
    && |reply.value.decoded.value| <= 524_288 && '\0' !in reply.value.decoded.value
  }

  /** The files of a candidate, by the listing of its folder at the moment it was asked for: the skill file
      alone if that failed; otherwise the skill file and listed ones, by path, and while neither limit is
      reached nothing of the folder was passed over. */
  ghost predicate Surrounded(world: World, base: string, item: Item, contents: string, asked: nat, done: nat,
                             files: seq<File>) {
    var folder, own := DirOf(item.path), File(BaseOf(item.path), contents, true);
    var listing := world.listing(asked, FolderEndpoint(base, item.fullName, folder));
    && own in files
    && (listing.Failed? ==> files == [own])
    && (listing.Ok? ==>
          && (forall i, j | 0 <= i < j < |files| :: !Less(files[j].path, files[i].path))
          && (forall f | f in files && f != own :: Listed(world, folder, item.path, f))
          && (|files| < 64 && Total(files) < 4_194_304 ==>
                forall k | 0 <= k < |listing.value| ::
                  Covered(world, listing.value[k], folder, item.path, 0, files, Total(files), asked, done)))
  }

  class Client {
    const world: World
    var moment: nat            // requests sent so far
    ghost var limited: bool    // some request has exhausted its rate-limit retries

    constructor (world: World)
      ensures this.world == world && moment == 0 && !limited
    {
      this.world, moment, limited := world, 0, false;
    }

    ghost method Note<T>(response: Response<T>)
      modifies this`limited
      ensures limited == (old(limited) || response == Failed(RateLimited))
    {
      limited := limited || response == Failed(RateLimited);
    }

    method GetContent(url: string) returns (file: Response<string>)
      modifies this
      ensures moment == old(moment) + 1
      ensures limited ==> old(limited) || file == Failed(RateLimited)
      ensures file.Ok? <==> Served(world.content(old(moment), url))
      ensures file.Ok? ==> file.value == world.content(old(moment), url).value.decoded.value
    {
      var response := world.content(moment, url);
      moment := moment + 1;
      Note(response);
      match response {
        case Failed(fault) => return Failed(fault);
        case Ok(raw) =>
          if !raw.base64 || raw.decoded.None? {
            return Failed(OtherFault);
          }
          if |raw.decoded.value| > MAX_FILE_BYTES || '\0' in raw.decoded.value || !raw.utf8 {
            return Failed(OtherFault);
          }
          return Ok(raw.decoded.value);
      }
    }

    /** A listed file: taken into the budget, passed over, or a reason to abort. */
    method TakeFile(item: Entry, root: string, primary: string, budget: FolderBudget)
      returns (taken: Option<File>, fault: Option<RequestFault>)
      requires budget.Within() && !budget.Full() && item.kind == "file"
      modifies this, budget
      ensures budget.Within() && moment >= old(moment)
      ensures fault.Some? ==> MustAbort(world, moment, fault.value) && taken.None?
      ensures taken.None? ==> budget.files == old(budget.files) && budget.bytes == old(budget.bytes)
      ensures taken.Some? ==>
        && budget.files == old(budget.files) + 1 && budget.bytes == old(budget.bytes) + |taken.value.contents|
        && SmallText(taken.value) && Serves(world, old(moment), item, root, primary, taken.value)
      ensures limited ==> old(limited) || fault == Some(RateLimited)
      ensures
        && fault.None? && item.path != primary && item.size <= MAX_FILE_BYTES
        && item.size <= MAX_TOTAL_BYTES - budget.bytes
        ==>
        && moment > old(moment)
        && Tried(world, old(moment), item, root, if taken.Some? then [taken.value] else [], budget.bytes)
    {
      if item.path == primary || item.size > MAX_FILE_BYTES || item.size > MAX_TOTAL_BYTES - budget.bytes {
        return None, None;
      }
      var contents := GetContent(item.url);
      if contents.Failed? {
        return None, if MustAbort(world, moment, contents.fault) then Some(contents.fault) else None;
      }
      if |contents.value| > MAX_TOTAL_BYTES - budget.bytes {
        return None, None;
      }
      var file := File(Relative(root, item.path), contents.value, true);
      budget.files := budget.files + 1;
      budget.bytes := budget.bytes + |contents.value|;
      return Some(file), None;
    }

    /** A folder inside a folder, after the files found so far; a failure that does not oblige to abort
        leaves it out. */
    method WalkNested(item: Entry, root: string, primary: string, depth: nat, budget: FolderBudget,
                      ghost files: seq<File>, ghost asked: nat)
      returns (nested: seq<File>, fault: Option<RequestFault>)
      requires depth <= MAX_DEPTH && budget.Within() && item.kind == "dir" && asked <= moment
      requires AllListed(world, root, primary, files)
      modifies this, budget
      ensures budget.Within() && moment >= old(moment) && budget.bytes >= old(budget.bytes)
        && budget.files >= old(budget.files)
      ensures fault.Some? ==> MustAbort(world, moment, fault.value)
      ensures fault.None? ==>
        && budget.files == old(budget.files) + |nested| && budget.bytes == old(budget.bytes) + Total(nested)
        && AllListed(world, root, primary, files + nested) && Total(files + nested) == Total(files) + Total(nested)
      ensures limited ==> old(limited) || fault == Some(RateLimited)
      ensures fault.None? && !budget.Full() ==>
        Covered(world, item, root, primary, depth, files + nested, budget.bytes, asked, moment)
      decreases MAX_DEPTH + 1 - depth, 0
    {
      ghost var reached := moment;
      nested, fault := WalkFolder(item.url, root, primary, depth + 1, budget);
      if fault.Some? && MustAbort(world, moment, fault.value) {
        return [], fault;
      }
      ListedMore(world, root, primary, files, nested);
      if !budget.Full() {
        ExploredLater(world, item.url, root, primary, depth + 1, nested, budget.bytes, reached, moment,
                      files + nested, budget.bytes, asked, moment);
      }
      fault := None;
    }

    /** Lists a folder and, within the budget, fetches its files and walks its sub-folders. On every
        return that does not abort the candidate, also when listings of sub-folders failed unnoticed,
        the budget has grown by exactly the number and size of the returned files; and unless the budget
        is used up, nothing down to the greatest depth was passed over. */
    method WalkFolder(endpoint: string, root: string, primary: string, depth: nat, budget: FolderBudget)
      returns (files: seq<File>, fault: Option<RequestFault>)
      requires depth <= MAX_DEPTH + 1 && budget.Within()
      modifies this, budget
      ensures budget.Within() && moment >= old(moment) && budget.bytes >= old(budget.bytes)
        && budget.files >= old(budget.files)
      ensures fault.Some? ==> files == []
      ensures fault.None? || !MustAbort(world, moment, fault.value) ==>
        budget.files == old(budget.files) + |files| && budget.bytes == old(budget.bytes) + Total(files)
      ensures limited ==> old(limited) || fault == Some(RateLimited)
      ensures AllListed(world, root, primary, files)
      ensures depth > MAX_DEPTH || old(budget.Full()) ==> moment == old(moment) && files == [] && fault.None?
      ensures !budget.Full() && (fault.None? || !MustAbort(world, moment, fault.value)) ==>
        Explored(world, endpoint, root, primary, depth, files, budget.bytes, old(moment), moment)
      ensures depth <= MAX_DEPTH && !old(budget.Full()) ==>
        && (world.listing(old(moment), endpoint).Failed? ==> fault.Some? && files == [])
        && (world.listing(old(moment), endpoint).Ok? && fault.Some? ==> MustAbort(world, moment, fault.value))
        && (world.listing(old(moment), endpoint).Ok? && fault.None? && !budget.Full() ==>
              CoveredUpTo(world, world.listing(old(moment), endpoint).value,
                          |world.listing(old(moment), endpoint).value|, root, primary, depth, files, budget.bytes,
                          old(moment), moment))
      decreases MAX_DEPTH + 1 - depth, 1
    {
      if depth > MAX_DEPTH || budget.Full() {
        return [], None;
      }
      var response := world.listing(moment, endpoint);
      ghost var asked := moment;
      moment := moment + 1;
      Note(response);
      if response.Failed? {
        assert ListedAt(world, asked, endpoint, root, primary, depth, [], budget.bytes, asked, moment);
        return [], Some(response.fault);
      }
      var items := response.value;
      files := [];
      for k := 0 to |items|
        invariant budget.Within() && moment >= asked + 1
        invariant budget.files == old(budget.files) + |files| && budget.bytes == old(budget.bytes) + Total(files)
        invariant limited ==> old(limited)
        invariant AllListed(world, root, primary, files)
        invariant !budget.Full() ==>
          CoveredUpTo(world, items, k, root, primary, depth, files, budget.bytes, asked, moment)
      {
        if budget.Full() {
          break;
        }
        var item := items[k];
        ghost var before, bytes, reached := files, budget.bytes, moment;
        if item.kind == "file" {
          var taken, error := TakeFile(item, root, primary, budget);
          if error.Some? {
            return [], error;
          }
          if taken.Some? {
            ListedOneMore(world, root, primary, files, taken.value, asked, endpoint, k, reached);
            files := files + [taken.value];
          }
          TriedIsCovered(world, item, root, primary, depth, if taken.Some? then [taken.value] else [],
                         budget.bytes, reached, files, asked, moment);
        } else if item.kind == "dir" {
          var nested, error := WalkNested(item, root, primary, depth, budget, files, asked);
          if error.Some? {
            return [], error;
          }
          files := files + nested;
        }
        if !budget.Full() {
          CoveredOneMore(world, items, k, root, primary, depth, before, bytes, asked, reached, files, budget.bytes,
                         moment);
        }
      }
      if !budget.Full() {
        assert ListedAt(world, asked, endpoint, root, primary, depth, files, budget.bytes, asked, moment);
      }
      return files, None;
    }

    /** The skill file and what was found around it, by path. */
    method FolderFiles(base: string, fullName: string, folder: string, primary: string, contents: string)
      returns (files: seq<File>, fault: Option<RequestFault>)
      requires |contents| <= MAX_FILE_BYTES && '\0' !in contents
      modifies this
      ensures moment >= old(moment)
      ensures fault.None? ==>
        && 1 <= |files| <= MAX_SKILL_FILES && Total(files) <= MAX_TOTAL_BYTES
        && File(BaseOf(primary), contents, true) in files
        && Sorted(PathLess, files)
        && (forall f | f in files && f != File(BaseOf(primary), contents, true) :: Listed(world, folder, primary, f))
        && (forall f | f in files :: SmallText(f))
      ensures fault.None? && |files| < MAX_SKILL_FILES && Total(files) < MAX_TOTAL_BYTES ==>
        Explored(world, FolderEndpoint(base, fullName, folder), folder, primary, 0, files, Total(files), old(moment),
                 moment)
      ensures var listing := world.listing(old(moment), FolderEndpoint(base, fullName, folder));
        && (listing.Failed? ==> fault.Some?)
        && (listing.Ok? && fault.Some? ==> MustAbort(world, moment, fault.value))
        && (listing.Ok? && fault.None? && |files| < MAX_SKILL_FILES && Total(files) < MAX_TOTAL_BYTES ==>
              CoveredUpTo(world, listing.value, |listing.value|, folder, primary, 0, files, Total(files),
                          old(moment), moment))
      ensures limited ==> old(limited) || fault == Some(RateLimited)
    {
      var endpoint := FolderEndpoint(base, fullName, folder);
      var first := File(BaseOf(primary), contents, true);
      var budget := new FolderBudget(1, |contents|);
      var supporting;
      supporting, fault := WalkFolder(endpoint, folder, primary, 0, budget);
      if fault.Some? {
        return [], fault;
      }
      files := [first] + supporting;
      TotalConcat([first], supporting);
      TotalOne(first);
      FilesSorted(files);
      assert first in files;
      files := SortBy(PathLess, files);
      if !budget.Full() {
        ExploredLater(world, endpoint, folder, primary, 0, supporting, budget.bytes, old(moment), moment,
                      files, Total(files), old(moment), moment);
        CoveredByMore(world, world.listing(old(moment), endpoint).value, folder, primary, supporting, budget.bytes,
                      old(moment), moment, files, Total(files));
      }
    }

    /** The files of a candidate: those of its folder, or the skill file alone if the folder could not be
        listed. */
    method FilesAround(base: string, item: Item, contents: string)
      returns (files: seq<File>, fault: Option<RequestFault>)
      requires |contents| <= MAX_FILE_BYTES && '\0' !in contents
      modifies this
      ensures moment >= old(moment)
      ensures fault.Some? ==> MustAbort(world, moment, fault.value)
      ensures fault.None? ==>
        && Surrounded(world, base, item, contents, old(moment), moment, files)
        && 1 <= |files| <= 64 && Total(files) <= 4_194_304 && Storable(files)
      ensures var listing := world.listing(old(moment), FolderEndpoint(base, item.fullName, DirOf(item.path)));
        fault.None? && listing.Failed? ==> Uncancelled(world, moment)
      ensures limited ==> old(limited) || fault == Some(RateLimited)
    {
      var folder := DirOf(item.path);
      files, fault := FolderFiles(base, item.fullName, folder, item.path, contents);
      if fault.Some? && MustAbort(world, moment, fault.value) {
        return;
      }
      if fault.Some? || files == [] {
        files := [File(BaseOf(item.path), contents, true)];
        TotalOne(files[0]);
        assert files[0] in files;
        fault := None;
      }
    }

    /** The stars an item counts for. */
    method Stars(item: Item) returns (stars: int, fault: Option<RequestFault>)
      modifies this
      ensures moment == old(moment) + (if item.stars == 0 then 1 else 0)
      ensures fault.Some? ==> MustAbort(world, moment, fault.value)
      ensures item.stars != 0 ==> stars == item.stars && fault.None?
      ensures item.stars == 0 && world.stars(old(moment), item.fullName).Ok? ==>
        stars == world.stars(old(moment), item.fullName).value && fault.None?
      ensures item.stars == 0 && world.stars(old(moment), item.fullName).Failed? ==>
        stars == 0 && (fault.None? ==> Uncancelled(world, moment))
      ensures limited ==> old(limited) || fault == Some(RateLimited)
    {
      stars := item.stars;
      if stars == 0 {
        var response := world.stars(moment, item.fullName);
        moment := moment + 1;
        Note(response);
        match response {
          case Ok(count) => stars := count;
          case Failed(error) =>
            if MustAbort(world, moment, error) {
              return stars, Some(error);
            }
        }
      }
      fault := None;
    }

    /** One item: too few stars, no readable skill file, an abort, or a candidate. */
    method FetchCandidate(item: Item, settings: Settings) returns (result: Fetched)
      modifies this
      ensures AsPromised(settings, item, result)
      ensures limited ==> old(limited) || result == Aborted(RateLimited)
      ensures result.Aborted? ==> result.fault == RateLimited || !Uncancelled(world, moment)
      ensures result.ContentFailed? ==> Uncancelled(world, moment)
      ensures result.StarsSkipped? && item.stars == 0 && world.stars(old(moment), item.fullName).Failed? ==>
        Uncancelled(world, moment)
      ensures result.Found? && world.listing(old(moment) + (if item.stars == 0 then 2 else 1),
                                             FolderEndpoint(settings.base, item.fullName, DirOf(item.path))).Failed? ==>
        Uncancelled(world, moment)
      ensures !result.Aborted? ==>
        var asked := world.stars(old(moment), item.fullName);
        var enough := item.stars > 10 || (item.stars == 0 && asked.Ok? && asked.value > 10);
        var served := Served(world.content(old(moment) + (if item.stars == 0 then 1 else 0), item.url));
        && (result.StarsSkipped? <==> !enough)
        && (result.ContentFailed? <==> enough && !served)
        && (result.Found? <==> enough && served)
      ensures result.Found? ==>
        var c, counting := result.candidate, if item.stars == 0 then 1 else 0;
        && c.contents == world.content(old(moment) + counting, item.url).value.decoded.value
        && c.stars == (if item.stars == 0 then world.stars(old(moment), item.fullName).value else item.stars)
        && Surrounded(world, settings.base, item, c.contents, old(moment) + counting + 1, moment, c.files)
    {
      var stars, failure := Stars(item);
      if failure.Some? {
        return Aborted(failure.value);
      }
      if stars <= 10 {
        return StarsSkipped;
      }
      var file := GetContent(item.url);
      if file.Failed? {
        if MustAbort(world, moment, file.fault) {
          return Aborted(file.fault);
        }
        return ContentFailed;
      }
      var files, fault := FilesAround(settings.base, item, file.value);
      if fault.Some? {
        return Aborted(fault.value);
      }
      var (name, description) := settings.metadata(file.value);
      if name == "" {
        name := SlugBase(item);
      }
      var owner := SourceParts(item.fullName).0;
      return Found(Candidate(IdOf(settings.unicode, item), item.fullName, SlugOf(settings.unicode, item), name,
                             description, file.value, stars, Lowered(settings.unicode, owner) in settings.owners, false,
                             files));
    }
  }

  predicate PathLess(a: File, b: File) {
    Less(a.path, b.path)
  }

  lemma PathOrder()
    ensures WeakOrder(PathLess)
  {
    forall x: File, y: File
      ensures PathLess(x, y) ==> !PathLess(y, x)
    {
      if Less(x.path, y.path) {
        LessAsymmetric(x.path, y.path);
      }
    }
    forall x: File, y: File, z: File
      ensures !PathLess(y, x) && !PathLess(z, y) ==> !PathLess(z, x)
    {
      if Less(z.path, x.path) && !Less(y.path, x.path) && !Less(z.path, y.path) {
        if y != z && y.path != z.path {
          LessTotal(y.path, z.path);
          LessTransitive(y.path, z.path, x.path);
        }
      }
    }
  }

  lemma {:induction false} InsertTotal(file: File, files: seq<File>)
    ensures Total(Insert(PathLess, file, files)) == Total(files) + |file.contents|
  {
    TotalOne(file);
    if files == [] || !PathLess(files[0], file) {
      TotalConcat([file], files);
    } else {
      InsertTotal(file, files[1..]);
      TotalConcat([files[0]], Insert(PathLess, file, files[1..]));
      TotalConcat([files[0]], files[1..]);
      assert files == [files[0]] + files[1..];
    }
  }

  lemma {:induction false} SortTotal(files: seq<File>)
    ensures Total(SortBy(PathLess, files)) == Total(files)
  {
    if files != [] {
      SortTotal(files[1..]);
      InsertTotal(files[0], SortBy(PathLess, files[1..]));
      TotalConcat([files[0]], files[1..]);
      TotalOne(files[0]);
      assert files == [files[0]] + files[1..];
    }
  }

  lemma FilesSorted(files: seq<File>)
    ensures var sorted := SortBy(PathLess, files);
      && |sorted| == |files| && Total(sorted) == Total(files) && Sorted(PathLess, sorted)
      && (forall f :: f in sorted <==> f in files)
  {
    PathOrder();
    SortSorts(PathLess, files);
    SortPermutes(PathLess, files);
    SortTotal(files);
    forall f
      ensures f in SortBy(PathLess, files) <==> f in files
    {
      assert f in multiset(SortBy(PathLess, files)) <==> f in multiset(files);
    }
  }

  /** What stays the same for all items: the API's address, the official owners, and library verdicts. */
  datatype Settings = Settings(base: string, unicode: Unicode, owners: set<string>,
                               metadata: string -> (string, string))

  datatype Fetched =
    | Found(candidate: Candidate)
    | StarsSkipped
    | ContentFailed
    | Aborted(fault: RequestFault)

  /** Name and description are those of the skill file's front matter, the name with a fallback. */
  predicate Titled(settings: Settings, item: Item, c: Candidate) {
    var (name, description) := settings.metadata(c.contents);
    && c.name == (if name == "" then SlugBase(item) else name) && c.description == description
    && (c.official <==> Lowered(settings.unicode, SourceParts(item.fullName).0) in settings.owners)
  }

  /** What a caller may rely on about a fetched candidate. */
  predicate AsPromised(settings: Settings, item: Item, result: Fetched) {
    result.Found? ==>
      var c := result.candidate;
      && c.id == IdOf(settings.unicode, item) && c.source == item.fullName && c.slug == SlugOf(settings.unicode, item)
      && Titled(settings, item, c)
      && c.stars > 10 && (item.stars != 0 ==> c.stars == item.stars) && !c.knownFresh
      && (exists f | f in c.files :: f.path == BaseOf(item.path) && f.contents == c.contents)
      && 1 <= |c.files| <= MAX_SKILL_FILES && Total(c.files) <= MAX_TOTAL_BYTES
      && Storable(c.files)
  }

  /** So a candidate found under a canonical name carries its canonical file: what the publication gate
      of the index asks of its source. */
  lemma FoundIsCanonical(settings: Settings, item: Item, c: Candidate)
    requires AsPromised(settings, item, Found(c)) && CanonicalName(BaseOf(item.path))
    ensures CanonicalPresent(c.contents, c.files)
  {
  }
}
