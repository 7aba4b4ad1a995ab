/** Download statistics: the one-pass aggregate over the joined rows, and the log of events behind it. */
module AdminStats {
  import opened Catalog
  import opened Orders
  import opened Store

  datatype ClientStats = ClientStats(id: string, name: string, downloads: nat, first: int, last: int)

  datatype SkillStats = SkillStats(
    id: string, name: string, source: string, slug: string, security: int, quality: int, llmChecked: bool,
    downloads: nat, uniqueClients: nat, last: Option<int>, clients: seq<ClientStats>)

  datatype Report = Report(totalSkills: nat, totalDownloads: nat, uniqueClients: nat, skills: seq<SkillStats>)

  /** One row of skill_downloads joined with api_keys. */
  datatype ClientRow = ClientRow(skill: string, client: ClientStats)

  predicate ClientLess(a: ClientStats, b: ClientStats) {
    a.downloads > b.downloads || (a.downloads == b.downloads && Less(a.id, b.id))
  }

  predicate SkillLess(a: SkillStats, b: SkillStats) {
    a.downloads > b.downloads || (a.downloads == b.downloads && Less(a.id, b.id))
  }

  // --- What the report should be ---------------------------------------------------------------

  function ClientOf(t: Tables, skill: string, key: string): ClientStats
    requires (skill, key) in t.downloads && key in t.keys
  {
    var usage := t.downloads[(skill, key)];
    ClientStats(key, t.keys[key], usage.downloads, usage.first, usage.last)
  }

  /** The keys that have downloaded a skill. */
  function ClientsOf(t: Tables, skill: string): set<string> {
    set p | p in t.downloads && p.0 == skill :: p.1
  }

  function Sum(clients: seq<ClientStats>): nat {
    if clients == [] then 0 else Sum(clients[1..]) + clients[0].downloads
  }

  function Latest(clients: seq<ClientStats>): Option<int> {
    if clients == [] then None
    else Later(Latest(clients[1..]), clients[0])
  }

  function Later(last: Option<int>, c: ClientStats): Option<int> {
    if last.None? || c.last > last.value then Some(c.last) else last
  }

  /** The entry of a skill with these clients; scores of unchecked skills are not reported. */
  function Entry(id: string, row: Row, clients: seq<ClientStats>): SkillStats {
    SkillStats(id, row.name, row.source, row.slug, if row.llmChecked then row.security else 0,
               if row.llmChecked then row.quality else 0, row.llmChecked,
               Sum(clients), |clients|, Latest(clients), clients)
  }

  // --- The one-pass aggregate -------------------------------------------------------------------

  /** The clients of `skill` among the rows, in row order. */
  function Clients(rows: seq<ClientRow>, skill: string): seq<ClientStats> {
    if rows == [] then []
    else if rows[0].skill == skill then [rows[0].client] + Clients(rows[1..], skill)
    else Clients(rows[1..], skill)
  }

  lemma {:induction false} ClientsAppend(rows: seq<ClientRow>, row: ClientRow, skill: string)
    ensures Clients(rows + [row], skill) ==
      if row.skill == skill then Clients(rows, skill) + [row.client] else Clients(rows, skill)
  {
    if rows != [] {
      assert (rows + [row])[1..] == rows[1..] + [row];
      ClientsAppend(rows[1..], row, skill);
    } else {
      assert rows + [row] == [row] && [row][1..] == [];
    }
  }

  lemma {:induction false} SumAppend(clients: seq<ClientStats>, c: ClientStats)
    ensures Sum(clients + [c]) == Sum(clients) + c.downloads
    ensures Latest(clients + [c]) == Later(Latest(clients), c)
  {
    if clients != [] {
      assert (clients + [c])[1..] == clients[1..] + [c];
      SumAppend(clients[1..], c);
    } else {
      assert clients + [c] == [c] && [c][1..] == [];
    }
  }

  function SumRows(rows: seq<ClientRow>): nat {
    if rows == [] then 0 else SumRows(rows[1..]) + rows[0].client.downloads
  }

  function SumEntries(entries: seq<SkillStats>): nat {
    if entries == [] then 0 else SumEntries(entries[1..]) + entries[0].downloads
  }

  function IdsOf(rows: seq<ClientRow>): set<string> {
    set r | r in rows :: r.client.id
  }

  lemma {:induction false} SumRowsAppend(rows: seq<ClientRow>, row: ClientRow)
    ensures SumRows(rows + [row]) == SumRows(rows) + row.client.downloads
    ensures IdsOf(rows + [row]) == IdsOf(rows) + {row.client.id}
  {
    if rows != [] {
      assert (rows + [row])[1..] == rows[1..] + [row];
      SumRowsAppend(rows[1..], row);
      assert forall r :: r in rows + [row] <==> r in rows || r == row;
    } else {
      assert rows + [row] == [row] && [row][1..] == [];
    }
  }

  lemma {:induction false} SumEntriesUpdate(entries: seq<SkillStats>, k: nat, e: SkillStats)
    requires k < |entries|
    ensures SumEntries(entries[k := e]) == SumEntries(entries) - entries[k].downloads + e.downloads
  {
    if k > 0 {
      SumEntriesUpdate(entries[1..], k - 1, e);
      assert entries[k := e][1..] == entries[1..][k - 1 := e];
    } else {
      assert entries[k := e][1..] == entries[1..];
    }
  }

  lemma {:induction false} SumEntriesAppend(entries: seq<SkillStats>, e: SkillStats)
    ensures SumEntries(entries + [e]) == SumEntries(entries) + e.downloads
  {
    if entries != [] {
      assert (entries + [e])[1..] == entries[1..] + [e];
      SumEntriesAppend(entries[1..], e);
    } else {
      assert entries + [e] == [e] && [e][1..] == [];
    }
  }

  /** The rows of the skills listed in `ids`. */
  function Known(rows: seq<ClientRow>, ids: seq<string>): seq<ClientRow> {
    if rows == [] then []
    else if rows[0].skill in ids then [rows[0]] + Known(rows[1..], ids)
    else Known(rows[1..], ids)
  }

  lemma {:induction false} KnownAppend(rows: seq<ClientRow>, row: ClientRow, ids: seq<string>)
    ensures Known(rows + [row], ids) == if row.skill in ids then Known(rows, ids) + [row] else Known(rows, ids)
  {
    if rows != [] {
      assert (rows + [row])[1..] == rows[1..] + [row];
      KnownAppend(rows[1..], row, ids);
    } else {
      assert rows + [row] == [row] && [row][1..] == [];
    }
  }

  lemma {:induction false} KnownCounted(rows: seq<ClientRow>, ids: seq<string>, row: ClientRow)
    ensures multiset(Known(rows, ids))[row] == if row.skill in ids then multiset(rows)[row] else 0
  {
    if rows != [] {
      KnownCounted(rows[1..], ids, row);
      assert rows == [rows[0]] + rows[1..];
    }
  }

  ghost predicate Scanned(rows: Rows, ids: seq<string>, seen: seq<ClientRow>, skills: seq<SkillStats>) {
    && |skills| == |ids|
    && forall i | 0 <= i < |ids| :: ids[i] in rows && skills[i] == Entry(ids[i], rows[ids[i]], Clients(seen, ids[i]))
  }

  ghost predicate Located(ids: seq<string>, positions: map<string, nat>) {
    && (forall id :: id in positions <==> id in ids)
    && (forall id | id in positions :: positions[id] < |ids| && ids[positions[id]] == id)
  }

  lemma Find(ids: seq<string>, positions: map<string, nat>, id: string)
    requires Located(ids, positions)
    ensures id in positions <==> id in ids
    ensures id in positions ==> positions[id] < |ids| && ids[positions[id]] == id
  {
  }

  /** One more client at its skill's position keeps the entries in step with the rows. */
  lemma EntryCounts(rows: Rows, ids: seq<string>, seen: seq<ClientRow>, skills: seq<SkillStats>, position: nat,
                    row: ClientRow, entry: SkillStats)
    requires Scanned(rows, ids, seen, skills) && position < |ids| && ids[position] == row.skill
    requires forall i, j | 0 <= i < j < |ids| :: ids[i] != ids[j]
    requires var e, c := skills[position], row.client;
      entry == e.(clients := e.clients + [c], downloads := e.downloads + c.downloads,
                  uniqueClients := e.uniqueClients + 1, last := Later(e.last, c))
    ensures Scanned(rows, ids, seen + [row], skills[position := entry])
    ensures SumEntries(skills[position := entry]) == SumEntries(skills) + row.client.downloads
  {
    SumAppend(Clients(seen, row.skill), row.client);
    SumEntriesUpdate(skills, position, entry);
    forall i | 0 <= i < |ids|
      ensures skills[position := entry][i] == Entry(ids[i], rows[ids[i]], Clients(seen + [row], ids[i]))
    {
      ClientsAppend(seen, row, ids[i]);
    }
  }

  /** The entries, the total and the client ids are those of the rows. */
  ghost predicate Tallies(rows: Rows, ids: seq<string>, seen: seq<ClientRow>, skills: seq<SkillStats>, total: nat,
                          clientIds: set<string>) {
    Scanned(rows, ids, seen, skills) && total == SumRows(seen) == SumEntries(skills) && clientIds == IdsOf(seen)
  }

  lemma TalliesMore(rows: Rows, ids: seq<string>, seen: seq<ClientRow>, skills: seq<SkillStats>, total: nat,
                    clientIds: set<string>, position: nat, row: ClientRow, entry: SkillStats)
    requires Tallies(rows, ids, seen, skills, total, clientIds) && position < |ids| && ids[position] == row.skill
    requires forall i, j | 0 <= i < j < |ids| :: ids[i] != ids[j]
    requires var e, c := skills[position], row.client;
      entry == e.(clients := e.clients + [c], downloads := e.downloads + c.downloads,
                  uniqueClients := e.uniqueClients + 1, last := Later(e.last, c))
    ensures Tallies(rows, ids, seen + [row], skills[position := entry], total + row.client.downloads,
                    clientIds + {row.client.id})
  {
    EntryCounts(rows, ids, seen, skills, position, row, entry);
    SumRowsAppend(seen, row);
  }

  lemma TakeNext<T>(s: seq<T>, k: nat)
    requires k < |s|
    ensures s[..k + 1] == s[..k] + [s[k]]
  {
  }

  lemma TakeAll<T>(s: seq<T>)
    ensures s[..|s|] == s
  {
  }

  class Aggregate {
    var skills: seq<SkillStats>
    var positions: map<string, nat>
    var totalDownloads: nat
    var clientIds: set<string>

    /** After scanning the skills `ids` and counting the joined rows `seen`. */
    ghost predicate Holds(rows: Rows, ids: seq<string>, seen: seq<ClientRow>)
      reads this
    {
      Located(ids, positions) && Tallies(rows, ids, seen, skills, totalDownloads, clientIds)
    }

    constructor ()
      ensures Holds(map[], [], []) && skills == []
    {
      skills, positions, totalDownloads, clientIds := [], map[], 0, {};
    }

    method ScanSkill(rows: Rows, ghost ids: seq<string>, id: string)
      requires Holds(rows, ids, []) && id in rows && id !in ids
      modifies this
      ensures Holds(rows, ids + [id], [])
    {
      var row := rows[id];
      var entry := SkillStats(id, row.name, row.source, row.slug, row.security, row.quality, row.llmChecked, 0, 0,
                              None, []);
      if !entry.llmChecked {
        entry := entry.(security := 0, quality := 0);
      }
      SumEntriesAppend(skills, entry);
      positions := positions[id := |skills|];
      skills := skills + [entry];
    }

    /** Counts one joined row; a row of a skill that was not scanned is ignored. */
    method AddClient(ghost rows: Rows, ghost ids: seq<string>, ghost seen: seq<ClientRow>, row: ClientRow)
      requires Holds(rows, ids, seen)
      requires forall i, j | 0 <= i < j < |ids| :: ids[i] != ids[j]
      modifies this
      ensures row.skill in ids ==> Holds(rows, ids, seen + [row])
      ensures row.skill !in ids ==> Holds(rows, ids, seen)
    {
      Find(ids, positions, row.skill);
      if row.skill !in positions {
        return;
      }
      var position, client := positions[row.skill], row.client;
      var entry := skills[position];
      var last := entry.last;
      if last.None? || client.last > last.value {
        last := Some(client.last);
      }
      assert last == Later(entry.last, client);
      entry := entry.(clients := entry.clients + [client], downloads := entry.downloads + client.downloads,
                      uniqueClients := entry.uniqueClients + 1, last := last);
      TalliesMore(rows, ids, seen, skills, totalDownloads, clientIds, position, row, entry);
      skills := skills[position := entry];
      totalDownloads := totalDownloads + client.downloads;
      clientIds := clientIds + {client.id};
    }

    method ScanAll(rows: Rows, ids: seq<string>)
      requires Holds(rows, [], [])
      requires forall i | 0 <= i < |ids| :: ids[i] in rows
      requires forall i, j | 0 <= i < j < |ids| :: ids[i] != ids[j]
      modifies this
      ensures Holds(rows, ids, [])
    {
      assert ids[..0] == [];
      for k := 0 to |ids|
        invariant Holds(rows, ids[..k], [])
      {
        TakeNext(ids, k);
        ScanSkill(rows, ids[..k], ids[k]);
      }
      TakeAll(ids);
    }

    /** Counts the joined rows of scanned skills. */
    method AddAll(ghost rows: Rows, ghost ids: seq<string>, joined: seq<ClientRow>)
      requires Holds(rows, ids, [])
      requires forall i, j | 0 <= i < j < |ids| :: ids[i] != ids[j]
      modifies this
      ensures Holds(rows, ids, Known(joined, ids))
    {
      assert joined[..0] == [];
      for k := 0 to |joined|
        invariant Holds(rows, ids, Known(joined[..k], ids))
      {
        TakeNext(joined, k);
        KnownAppend(joined[..k], joined[k], ids);
        AddClient(rows, ids, Known(joined[..k], ids), joined[k]);
      }
      TakeAll(joined);
    }

    /** Sorts the skills, and then the clients of each of them. */
    method Finish() returns (report: Report)
      modifies this
      ensures var sorted := SortBy(SkillLess, old(skills));
        && |report.skills| == |sorted| == report.totalSkills
        && (forall i | 0 <= i < |sorted| :: report.skills[i] == SortedEntry(sorted[i]))
        && report.totalDownloads == old(totalDownloads) && report.uniqueClients == |old(clientIds)|
    {
      skills := SortBy(SkillLess, skills);
      ghost var sorted := skills;
      for position := 0 to |skills|
        invariant |skills| == |sorted| && totalDownloads == old(totalDownloads) && clientIds == old(clientIds)
        invariant forall i | 0 <= i < position :: skills[i] == SortedEntry(sorted[i])
        invariant forall i | position <= i < |skills| :: skills[i] == sorted[i]
      {
        skills := skills[position := skills[position].(clients := SortBy(ClientLess, skills[position].clients))];
      }
      report := Report(|skills|, totalDownloads, |clientIds|, skills);
    }
  }

  function SortedEntry(entry: SkillStats): SkillStats {
    entry.(clients := SortBy(ClientLess, entry.clients))
  }

  // --- The report, stated without the algorithm ---------------------------------------------------

  /** The join of the counters with the keys. */
  function RowSet(t: Tables): set<ClientRow>
    requires Sound(t)
  {
    set p | p in t.downloads :: ClientRow(p.0, ClientOf(t, p.0, p.1))
  }

  function ClientSet(t: Tables, skill: string): set<ClientStats>
    requires Sound(t)
  {
    set k | k in ClientsOf(t, skill) :: ClientOf(t, skill, k)
  }

  function KeysUsed(t: Tables): set<string> {
    set p | p in t.downloads :: p.1
  }

  ghost function Ids(entries: seq<SkillStats>): multiset<string> {
    if entries == [] then multiset{} else multiset{entries[0].id} + Ids(entries[1..])
  }

  /** One entry: the skill's own columns, its clients once each and in order, their sum, their number
      and the latest download. */
  ghost predicate IsEntry(t: Tables, e: SkillStats)
    requires Sound(t)
  {
    && e.id in t.skills
    && e == Entry(e.id, t.skills[e.id], e.clients)
    && multiset(e.clients) == multiset(ClientSet(t, e.id))
    && Sorted(ClientLess, e.clients)
  }

  ghost predicate IsReport(t: Tables, report: Report)
    requires Sound(t)
  {
    && report.totalSkills == |report.skills|
    && Ids(report.skills) == multiset(t.skills.Keys)
    && (forall e | e in report.skills :: IsEntry(t, e))
    && Sorted(SkillLess, report.skills)
    && report.totalDownloads == SumEntries(report.skills)
    && report.uniqueClients == |KeysUsed(t)|
  }

  lemma NotLessTransitive(a: string, b: string, c: string)
    requires !Less(b, a) && !Less(c, b)
    ensures !Less(c, a)
  {
    if Less(c, a) && b != c {
      LessTotal(b, c);
      LessTransitive(b, c, a);
    }
  }

  lemma ClientOrder()
    ensures WeakOrder(ClientLess)
  {
    forall x: ClientStats, y: ClientStats
      ensures ClientLess(x, y) ==> !ClientLess(y, x)
    {
      if Less(x.id, y.id) {
        LessAsymmetric(x.id, y.id);
      }
    }
    forall x: ClientStats, y: ClientStats, z: ClientStats
      ensures !ClientLess(y, x) && !ClientLess(z, y) ==> !ClientLess(z, x)
    {
      if !Less(y.id, x.id) && !Less(z.id, y.id) {
        NotLessTransitive(x.id, y.id, z.id);
      }
    }
  }

  lemma SkillOrder()
    ensures WeakOrder(SkillLess)
  {
    forall x: SkillStats, y: SkillStats
      ensures SkillLess(x, y) ==> !SkillLess(y, x)
    {
      if Less(x.id, y.id) {
        LessAsymmetric(x.id, y.id);
      }
    }
    forall x: SkillStats, y: SkillStats, z: SkillStats
      ensures !SkillLess(y, x) && !SkillLess(z, y) ==> !SkillLess(z, x)
    {
      if !Less(y.id, x.id) && !Less(z.id, y.id) {
        NotLessTransitive(x.id, y.id, z.id);
      }
    }
  }

  // --- Sorting keeps what the report says ----------------------------------------------------------

  lemma {:induction false} InsertKeepsSums(c: ClientStats, clients: seq<ClientStats>)
    ensures Sum(Insert(ClientLess, c, clients)) == Sum(clients) + c.downloads
    ensures Latest(Insert(ClientLess, c, clients)) == Later(Latest(clients), c)
  {
    if clients == [] || !ClientLess(clients[0], c) {
      assert ([c] + clients)[1..] == clients;
    } else {
      InsertKeepsSums(c, clients[1..]);
      var rest := Insert(ClientLess, c, clients[1..]);
      assert ([clients[0]] + rest)[1..] == rest;
    }
  }

  lemma {:induction false} SortKeepsSums(clients: seq<ClientStats>)
    ensures Sum(SortBy(ClientLess, clients)) == Sum(clients)
    ensures Latest(SortBy(ClientLess, clients)) == Latest(clients)
  {
    if clients != [] {
      SortKeepsSums(clients[1..]);
      InsertKeepsSums(clients[0], SortBy(ClientLess, clients[1..]));
    }
  }

  lemma {:induction false} InsertKeepsTotals(e: SkillStats, entries: seq<SkillStats>)
    ensures SumEntries(Insert(SkillLess, e, entries)) == SumEntries(entries) + e.downloads
    ensures Ids(Insert(SkillLess, e, entries)) == Ids(entries) + multiset{e.id}
  {
    if entries == [] || !SkillLess(entries[0], e) {
      assert ([e] + entries)[1..] == entries;
    } else {
      InsertKeepsTotals(e, entries[1..]);
      var rest := Insert(SkillLess, e, entries[1..]);
      assert ([entries[0]] + rest)[1..] == rest;
    }
  }

  lemma {:induction false} SortKeepsTotals(entries: seq<SkillStats>)
    ensures SumEntries(SortBy(SkillLess, entries)) == SumEntries(entries)
    ensures Ids(SortBy(SkillLess, entries)) == Ids(entries)
  {
    if entries != [] {
      SortKeepsTotals(entries[1..]);
      InsertKeepsTotals(entries[0], SortBy(SkillLess, entries[1..]));
    }
  }

  lemma {:induction false} SortedEntriesKeepTotals(p: seq<SkillStats>, q: seq<SkillStats>)
    requires |p| == |q| && forall i | 0 <= i < |q| :: p[i] == SortedEntry(q[i])
    ensures SumEntries(p) == SumEntries(q) && Ids(p) == Ids(q)
  {
    if p != [] {
      SortedEntriesKeepTotals(p[1..], q[1..]);
    }
  }

  lemma {:induction false} IdsScanned(entries: seq<SkillStats>, ids: seq<string>)
    requires |entries| == |ids| && forall i | 0 <= i < |ids| :: entries[i].id == ids[i]
    ensures Ids(entries) == multiset(ids)
  {
    if ids != [] {
      IdsScanned(entries[1..], ids[1..]);
      assert ids == [ids[0]] + ids[1..];
    }
  }

  /** A listing of a set without repetition. */
  lemma {:induction false} ListingIsSet(ids: seq<string>, keys: set<string>)
    requires forall x :: x in ids <==> x in keys
    requires forall i, j | 0 <= i < j < |ids| :: ids[i] != ids[j]
    ensures multiset(ids) == multiset(keys)
    decreases |ids|
  {
    if ids == [] {
      assert keys == {};
    } else {
      var rest := keys - {ids[0]};
      assert ids == [ids[0]] + ids[1..];
      forall x
        ensures x in ids[1..] <==> x in rest
      {
      }
      ListingIsSet(ids[1..], rest);
      assert multiset(keys) == multiset(rest) + multiset{ids[0]};
    }
  }

  lemma {:induction false} ClientsCounted(rows: seq<ClientRow>, skill: string, c: ClientStats)
    ensures multiset(Clients(rows, skill))[c] == multiset(rows)[ClientRow(skill, c)]
  {
    if rows != [] {
      ClientsCounted(rows[1..], skill, c);
      assert rows == [rows[0]] + rows[1..];
    }
  }

  /** The clients found in a join, in any order, are those of the table. */
  lemma ClientsComplete(t: Tables, rows: seq<ClientRow>, skill: string)
    requires Sound(t) && multiset(rows) == multiset(RowSet(t))
    ensures multiset(Clients(rows, skill)) == multiset(ClientSet(t, skill))
  {
    forall c: ClientStats
      ensures multiset(Clients(rows, skill))[c] == multiset(ClientSet(t, skill))[c]
    {
      ClientsCounted(rows, skill, c);
      if c in ClientSet(t, skill) {
        assert (skill, c.id) in t.downloads;
      }
      assert ClientRow(skill, c) in RowSet(t) <==> c in ClientSet(t, skill);
    }
  }

  lemma EntrySorted(t: Tables, rows: seq<ClientRow>, id: string)
    requires Sound(t) && id in t.skills && multiset(rows) == multiset(RowSet(t))
    ensures IsEntry(t, SortedEntry(Entry(id, t.skills[id], Clients(rows, id))))
  {
    var clients := Clients(rows, id);
    ClientOrder();
    SortSorts(ClientLess, clients);
    SortPermutes(ClientLess, clients);
    SortKeepsSums(clients);
    ClientsComplete(t, rows, id);
  }

  lemma KeysComplete(t: Tables, rows: seq<ClientRow>)
    requires Sound(t) && multiset(rows) == multiset(RowSet(t))
    ensures IdsOf(rows) == KeysUsed(t)
    ensures forall r | r in rows :: r.skill in t.skills
  {
    forall r | r in rows
      ensures r in RowSet(t)
    {
      assert r in multiset(rows);
    }
    forall k | k in KeysUsed(t)
      ensures k in IdsOf(rows)
    {
      var p :| p in t.downloads && p.1 == k;
      assert ClientRow(p.0, ClientOf(t, p.0, p.1)) in multiset(rows);
    }
  }

  lemma EntriesAssembled(t: Tables, rows: seq<ClientRow>, ids: seq<string>, skills: seq<SkillStats>, e: SkillStats)
    requires Sound(t) && multiset(rows) == multiset(RowSet(t)) && Scanned(t.skills, ids, rows, skills)
    requires e in SortBy(SkillLess, skills)
    ensures IsEntry(t, SortedEntry(e))
  {
    SortPermutes(SkillLess, skills);
    assert e in multiset(skills);
    var k :| 0 <= k < |skills| && skills[k] == e;
    EntrySorted(t, rows, ids[k]);
  }

  lemma SortedEntriesSorted(sorted: seq<SkillStats>, entries: seq<SkillStats>)
    requires Sorted(SkillLess, sorted) && |entries| == |sorted|
    requires forall i | 0 <= i < |sorted| :: entries[i] == SortedEntry(sorted[i])
    ensures Sorted(SkillLess, entries)
  {
  }

  lemma ReportAssembled(t: Tables, rows: seq<ClientRow>, ids: seq<string>, skills: seq<SkillStats>, report: Report)
    requires Sound(t) && multiset(rows) == multiset(RowSet(t)) && Scanned(t.skills, ids, rows, skills)
    requires (forall x :: x in ids <==> x in t.skills) && (forall i, j | 0 <= i < j < |ids| :: ids[i] != ids[j])
    requires var sorted := SortBy(SkillLess, skills);
      && |report.skills| == |sorted| == report.totalSkills
      && (forall i | 0 <= i < |sorted| :: report.skills[i] == SortedEntry(sorted[i]))
      && report.totalDownloads == SumEntries(skills) && report.uniqueClients == |IdsOf(rows)|
    ensures IsReport(t, report)
  {
    var sorted := SortBy(SkillLess, skills);
    SkillOrder();
    SortSorts(SkillLess, skills);
    SortedEntriesSorted(sorted, report.skills);
    SortKeepsTotals(skills);
    SortedEntriesKeepTotals(report.skills, sorted);
    IdsScanned(skills, ids);
    ListingIsSet(ids, t.skills.Keys);
    KeysComplete(t, rows);
    forall i | 0 <= i < |report.skills|
      ensures IsEntry(t, report.skills[i])
    {
      assert sorted[i] in sorted;
      EntriesAssembled(t, rows, ids, skills, sorted[i]);
    }
  }

  /** What two queries one after the other see: the skills of the first, and of the second the keys and the
      counters of those skills. Skills may have come, gone or changed in between. */
  function Between(skills: Rows, t: Tables): Tables {
    Tables(skills, t.keys, map p | p in t.downloads && p.0 in skills :: t.downloads[p])
  }

  lemma BetweenIsSound(before: Tables, t: Tables)
    requires Sound(before) && Sound(t)
    ensures Sound(Between(before.skills, t))
    ensures before.skills == t.skills ==> Between(before.skills, t) == t
  {
    if before.skills == t.skills {
      assert Between(before.skills, t).downloads == t.downloads;
    }
  }

  /** The join leaves exactly the counters of scanned skills to count. */
  lemma KnownIsBetween(before: Tables, t: Tables, rows: seq<ClientRow>, ids: seq<string>)
    requires Sound(before) && Sound(t) && multiset(rows) == multiset(RowSet(t))
    requires forall x :: x in ids <==> x in before.skills
    ensures Sound(Between(before.skills, t))
    ensures multiset(Known(rows, ids)) == multiset(RowSet(Between(before.skills, t)))
  {
    BetweenIsSound(before, t);
    var some := RowSet(Between(before.skills, t));
    forall r: ClientRow
      ensures multiset(Known(rows, ids))[r] == multiset(some)[r]
    {
      KnownCounted(rows, ids, r);
      InBetween(before, t, r);
    }
  }

  lemma InBetween(before: Tables, t: Tables, r: ClientRow)
    requires Sound(before) && Sound(t) && Sound(Between(before.skills, t))
    ensures r in RowSet(Between(before.skills, t)) <==> r in RowSet(t) && r.skill in before.skills
  {
    if r in RowSet(t) && r.skill in before.skills {
      var p :| p in t.downloads && r == ClientRow(p.0, ClientOf(t, p.0, p.1));
      assert p in Between(before.skills, t).downloads;
    }
  }

  lemma {:induction false} AllKnown(rows: seq<ClientRow>, ids: seq<string>)
    requires forall r | r in rows :: r.skill in ids
    ensures Known(rows, ids) == rows
  {
    if rows != [] {
      AllKnown(rows[1..], ids);
    }
  }

  /** What was scanned, counted and sorted is the report. */
  lemma CollectedIsReport(before: Tables, t: Tables, rows: seq<ClientRow>, ids: seq<string>, skills: seq<SkillStats>,
                          report: Report)
    requires Sound(before) && Sound(t) && multiset(rows) == multiset(RowSet(t))
    requires forall x :: x in ids <==> x in before.skills
    requires forall i, j | 0 <= i < j < |ids| :: ids[i] != ids[j]
    requires Scanned(before.skills, ids, Known(rows, ids), skills)
    requires var sorted := SortBy(SkillLess, skills);
      && |report.skills| == |sorted| == report.totalSkills
      && (forall i | 0 <= i < |sorted| :: report.skills[i] == SortedEntry(sorted[i]))
    requires report.totalDownloads == SumRows(Known(rows, ids)) == SumEntries(skills)
    requires report.uniqueClients == |IdsOf(Known(rows, ids))|
    ensures Sound(Between(before.skills, t)) && IsReport(Between(before.skills, t), report)
    ensures before.skills == t.skills ==> IsReport(t, report) && report.totalDownloads == SumRows(rows)
  {
    KnownIsBetween(before, t, rows, ids);
    BetweenIsSound(before, t);
    ReportAssembled(Between(before.skills, t), Known(rows, ids), ids, skills, report);
    if before.skills == t.skills {
      KeysComplete(t, rows);
      AllKnown(rows, ids);
    }
  }

  /** The administrator's report, from the skills as one query found them and the rows a later one joined, in
      any order. */
  method Collect(before: Tables, ghost t: Tables, rows: seq<ClientRow>) returns (report: Report)
    requires Sound(before) && Sound(t) && multiset(rows) == multiset(RowSet(t))
    ensures Sound(Between(before.skills, t)) && IsReport(Between(before.skills, t), report)
    ensures before.skills == t.skills ==> IsReport(t, report) && report.totalDownloads == SumRows(rows)
  {
    var ids := Ascending(before.skills.Keys);
    AscendingLists(before.skills.Keys);
    AscendingDistinct(before.skills.Keys);
    var stats := new Aggregate();
    stats.ScanAll(before.skills, ids);
    stats.AddAll(before.skills, ids, rows);
    ghost var skills := stats.skills;
    report := stats.Finish();
    CollectedIsReport(before, t, rows, ids, skills, report);
  }

  // --- The report, column by column ---------------------------------------------------------------

  /** One client of a skill: its own key and the counter of skill and key. */
  ghost predicate ClientColumns(t: Tables, skill: string, c: ClientStats) {
    && (skill, c.id) in t.downloads && c.id in t.keys && c.name == t.keys[c.id]
    && c.downloads == t.downloads[(skill, c.id)].downloads
    && c.first == t.downloads[(skill, c.id)].first && c.last == t.downloads[(skill, c.id)].last
  }

  /** One skill: its own columns, with scores only if it is checked, and its clients by downloads, most
      first, and then by id. */
  ghost predicate SkillColumns(t: Tables, e: SkillStats) {
    && e.id in t.skills
    && e.name == t.skills[e.id].name && e.source == t.skills[e.id].source && e.slug == t.skills[e.id].slug
    && e.llmChecked == t.skills[e.id].llmChecked
    && e.security == (if e.llmChecked then t.skills[e.id].security else 0)
    && e.quality == (if e.llmChecked then t.skills[e.id].quality else 0)
    && e.downloads == Sum(e.clients) && e.uniqueClients == |e.clients|
    && (forall c | c in e.clients :: ClientColumns(t, e.id, c))
    && (forall key | (e.id, key) in t.downloads :: exists c :: c in e.clients && c.id == key)
    && (forall i, j | 0 <= i < j < |e.clients| ::
          || e.clients[i].downloads > e.clients[j].downloads
          || (e.clients[i].downloads == e.clients[j].downloads && !Less(e.clients[j].id, e.clients[i].id)))
  }

  /** The latest of the clients' dates. */
  ghost predicate LatestDate(clients: seq<ClientStats>, last: Option<int>) {
    && (last.None? <==> clients == [])
    && (last.Some? ==>
          (exists c :: c in clients && c.last == last.value) && forall c | c in clients :: c.last <= last.value)
  }

  lemma {:induction false} LatestIs(clients: seq<ClientStats>)
    ensures LatestDate(clients, Latest(clients))
  {
    if clients != [] {
      LatestIs(clients[1..]);
      assert clients[0] in clients;
      assert forall c :: c in clients <==> c == clients[0] || c in clients[1..];
    }
  }

  lemma ClientsMean(t: Tables, e: SkillStats)
    requires Sound(t) && IsEntry(t, e)
    ensures forall c | c in e.clients :: ClientColumns(t, e.id, c)
    ensures forall key | (e.id, key) in t.downloads :: exists c :: c in e.clients && c.id == key
  {
    forall c | c in e.clients
      ensures ClientColumns(t, e.id, c)
    {
      assert c in multiset(e.clients);
      assert c in ClientSet(t, e.id);
    }
    forall key | (e.id, key) in t.downloads
      ensures exists c :: c in e.clients && c.id == key
    {
      var c := ClientOf(t, e.id, key);
      assert key in ClientsOf(t, e.id);
      assert c in ClientSet(t, e.id);
      assert c in multiset(e.clients);
    }
  }

  /** What the report shows, without the comparisons and the aggregate: every column of every skill and
      client, skills by downloads, most first, and then by id. */
  lemma ReportMeans(t: Tables, report: Report)
    requires Sound(t) && IsReport(t, report)
    ensures forall e | e in report.skills :: SkillColumns(t, e) && LatestDate(e.clients, e.last)
    ensures forall i, j | 0 <= i < j < |report.skills| ::
      || report.skills[i].downloads > report.skills[j].downloads
      || (report.skills[i].downloads == report.skills[j].downloads
          && !Less(report.skills[j].id, report.skills[i].id))
  {
    forall e | e in report.skills
      ensures SkillColumns(t, e) && LatestDate(e.clients, e.last)
    {
      ClientsMean(t, e);
      LatestIs(e.clients);
      forall i, j | 0 <= i < j < |e.clients|
        ensures || e.clients[i].downloads > e.clients[j].downloads
          || (e.clients[i].downloads == e.clients[j].downloads && !Less(e.clients[j].id, e.clients[i].id))
      {
        assert !ClientLess(e.clients[j], e.clients[i]);
      }
    }
    forall i, j | 0 <= i < j < |report.skills|
      ensures || report.skills[i].downloads > report.skills[j].downloads
        || (report.skills[i].downloads == report.skills[j].downloads
            && !Less(report.skills[j].id, report.skills[i].id))
    {
      assert !SkillLess(report.skills[j], report.skills[i]);
    }
  }

  // --- The report depends on the tables only --------------------------------------------------------

  lemma EntryUnique(t: Tables, e: SkillStats, f: SkillStats)
    requires Sound(t) && IsEntry(t, e) && IsEntry(t, f) && e.id == f.id
    ensures e == f
  {
    var p, q := e.clients, f.clients;
    forall x, y | x in p && y in p && x != y
      ensures ClientLess(x, y) || ClientLess(y, x)
    {
      assert x in multiset(p) && y in multiset(p);
      LessTotal(x.id, y.id);
    }
    SortedUnique(ClientLess, p, q);
  }

  lemma {:induction false} EntriesCounted(t: Tables, entries: seq<SkillStats>, e: SkillStats)
    requires Sound(t) && forall k | 0 <= k < |entries| :: IsEntry(t, entries[k])
    ensures multiset(entries)[e] == if IsEntry(t, e) then Ids(entries)[e.id] else 0
  {
    if entries != [] {
      EntriesCounted(t, entries[1..], e);
      SameEntry(t, entries[0], e);
      CountHead(entries, e);
    }
  }

  lemma SameEntry(t: Tables, f: SkillStats, e: SkillStats)
    requires Sound(t) && IsEntry(t, f)
    ensures f == e <==> IsEntry(t, e) && f.id == e.id
  {
    if IsEntry(t, e) && f.id == e.id {
      EntryUnique(t, f, e);
    }
  }

  lemma CountHead(entries: seq<SkillStats>, e: SkillStats)
    requires entries != []
    ensures multiset(entries)[e] == multiset(entries[1..])[e] + (if entries[0] == e then 1 else 0)
    ensures Ids(entries)[e.id] == Ids(entries[1..])[e.id] + (if entries[0].id == e.id then 1 else 0)
  {
    assert entries == [entries[0]] + entries[1..];
  }

  /** There is one report for given tables: neither the order of the joined rows nor the sorting
      algorithm shows in it. */
  lemma ReportUnique(t: Tables, p: Report, q: Report)
    requires Sound(t) && IsReport(t, p) && IsReport(t, q)
    ensures p == q
  {
    forall e: SkillStats
      ensures multiset(p.skills)[e] == multiset(q.skills)[e]
    {
      EntriesCounted(t, p.skills, e);
      EntriesCounted(t, q.skills, e);
    }
    forall x, y | x in p.skills && y in p.skills && x != y
      ensures SkillLess(x, y) || SkillLess(y, x)
    {
      if x.id == y.id {
        EntryUnique(t, x, y);
      } else {
        LessTotal(x.id, y.id);
      }
    }
    SortedUnique(SkillLess, p.skills, q.skills);
  }
}
