/** The statistics agree with the log of everything that ever happened to the tables. */
module Downloads {
  import opened Catalog
  import opened Store
  import opened AdminStats

  datatype Event =
    | Upsert(id: string, row: Row)
    | Removal(id: string)
    | NewKey(key: string, name: string)
    | Download(skill: string, key: string, at: int)

  datatype History = Start | Next(before: History, event: Event)

  /** A recorded download. */
  datatype Hit = Hit(skill: string, key: string, at: int)

  predicate Recorded(t: Tables, skill: string, key: string) {
    skill in t.skills && key in t.keys
  }

  /** The tables after a history, an event that breaks a constraint having no effect. */
  function After(h: History): Tables {
    match h
    case Start => Tables(map[], map[], map[])
    case Next(before, event) =>
      var t := After(before);
      match event
      case Upsert(id, row) => if Storable(row.files) && RowAccepted(row) then Upserted(t, id, row) else t
      case Removal(id) => Deleted(t, id)
      case NewKey(key, name) => if key in t.keys then t else t.(keys := t.keys[key := name])
      case Download(skill, key, at) => if Recorded(t, skill, key) then Downloaded(t, skill, key, at) else t
  }

  function Dropping(hits: seq<Hit>, skill: string): seq<Hit> {
    if hits == [] then []
    else
      var front, hit := Dropping(hits[..|hits| - 1], skill), hits[|hits| - 1];
      if hit.skill == skill then front else front + [hit]
  }

  /** The downloads recorded since the skill was last deleted, in order. */
  function Live(h: History): seq<Hit> {
    match h
    case Start => []
    case Next(before, Removal(id)) => Dropping(Live(before), id)
    case Next(before, Download(skill, key, at)) =>
      if Recorded(After(before), skill, key) then Live(before) + [Hit(skill, key, at)] else Live(before)
    case Next(before, _) => Live(before)
  }

  /** The clock never runs behind a download that still counts. */
  ghost predicate Steady(h: History) {
    match h
    case Start => true
    case Next(before, event) =>
      Steady(before) && (event.Download? ==> forall hit | hit in Live(before) :: hit.at <= event.at)
  }

  /** One event, carried out by the store's own operations. */
  method Play(store: SQLite, ghost h: History, event: Event)
    requires store.tables == After(h) && Sound(store.tables)
    modifies store
    ensures store.tables == After(Next(h, event)) && Sound(store.tables)
  {
    match event {
      case Upsert(id, row) => var _ := store.UpsertSkill(id, row, true);
      case Removal(id) => var _ := store.DeleteSkill(id, true);
      case NewKey(key, name) =>
        if key !in store.tables.keys {
          store.CreateAPIKey(key, name);
        }
      case Download(skill, key, at) => var _ := store.RecordSkillDownload(skill, key, at, true);
    }
  }

  // --- The table is a summary of the live hits --------------------------------------------------

  predicate Matching(hit: Hit, skill: string, key: string) {
    hit.skill == skill && hit.key == key
  }

  function Count(hits: seq<Hit>, skill: string, key: string): nat {
    if hits == [] then 0
    else Count(hits[..|hits| - 1], skill, key) + (if Matching(hits[|hits| - 1], skill, key) then 1 else 0)
  }

  function CountSkill(hits: seq<Hit>, skill: string): nat {
    if hits == [] then 0
    else CountSkill(hits[..|hits| - 1], skill) + (if hits[|hits| - 1].skill == skill then 1 else 0)
  }

  function FirstOf(hits: seq<Hit>, skill: string, key: string): Option<int> {
    if hits == [] then None
    else
      var earlier, hit := FirstOf(hits[..|hits| - 1], skill, key), hits[|hits| - 1];
      if earlier.None? && Matching(hit, skill, key) then Some(hit.at) else earlier
  }

  function LastOf(hits: seq<Hit>, skill: string, key: string): Option<int> {
    if hits == [] then None
    else if Matching(hits[|hits| - 1], skill, key) then Some(hits[|hits| - 1].at)
    else LastOf(hits[..|hits| - 1], skill, key)
  }

  /** A counter says how often, and when first and last. */
  ghost predicate Summarises(u: Usage, hits: seq<Hit>, skill: string, key: string) {
    && u.downloads == Count(hits, skill, key)
    && FirstOf(hits, skill, key) == Some(u.first)
    && LastOf(hits, skill, key) == Some(u.last)
  }

  ghost predicate InStep(t: Tables, hits: seq<Hit>) {
    && Sound(t)
    && (forall skill, key :: (skill, key) in t.downloads <==> Count(hits, skill, key) > 0)
    && (forall p | p in t.downloads :: Summarises(t.downloads[p], hits, p.0, p.1))
  }

  lemma {:induction false} CountZero(hits: seq<Hit>, skill: string, key: string)
    ensures Count(hits, skill, key) == 0 <==> forall i | 0 <= i < |hits| :: !Matching(hits[i], skill, key)
    ensures Count(hits, skill, key) == 0 <==> FirstOf(hits, skill, key).None?
  {
    if hits != [] {
      var n := |hits| - 1;
      CountZero(hits[..n], skill, key);
      assert forall i | 0 <= i < n :: hits[..n][i] == hits[i];
    }
  }

  lemma OneMoreHit(hits: seq<Hit>, hit: Hit, skill: string, key: string)
    ensures Matching(hit, skill, key) ==>
      && Count(hits + [hit], skill, key) == Count(hits, skill, key) + 1
      && LastOf(hits + [hit], skill, key) == Some(hit.at)
      && FirstOf(hits + [hit], skill, key) ==
           (if FirstOf(hits, skill, key).None? then Some(hit.at) else FirstOf(hits, skill, key))
    ensures !Matching(hit, skill, key) ==>
      && Count(hits + [hit], skill, key) == Count(hits, skill, key)
      && LastOf(hits + [hit], skill, key) == LastOf(hits, skill, key)
      && FirstOf(hits + [hit], skill, key) == FirstOf(hits, skill, key)
  {
    assert (hits + [hit])[..|hits|] == hits;
  }

  lemma DownloadCounts(t: Tables, hits: seq<Hit>, hit: Hit, skill: string, key: string)
    requires InStep(t, hits)
    ensures var after, all := Downloaded(t, hit.skill, hit.key, hit.at).downloads, hits + [hit];
      && ((skill, key) in after <==> Count(all, skill, key) > 0)
      && ((skill, key) in after ==> Summarises(after[(skill, key)], all, skill, key))
  {
    OneMoreHit(hits, hit, skill, key);
    CountZero(hits, skill, key);
    if (skill, key) in t.downloads {
      assert Summarises(t.downloads[(skill, key)], hits, skill, key);
    }
    assert (skill, key) == (hit.skill, hit.key) <==> Matching(hit, skill, key);
  }

  lemma InStepDownload(t: Tables, hits: seq<Hit>, hit: Hit)
    requires InStep(t, hits) && Recorded(t, hit.skill, hit.key)
    ensures InStep(Downloaded(t, hit.skill, hit.key, hit.at), hits + [hit])
  {
    forall skill, key
      ensures var after, all := Downloaded(t, hit.skill, hit.key, hit.at).downloads, hits + [hit];
        && ((skill, key) in after <==> Count(all, skill, key) > 0)
        && ((skill, key) in after ==> Summarises(after[(skill, key)], all, skill, key))
    {
      DownloadCounts(t, hits, hit, skill, key);
    }
  }

  /** Dropping the hits of one skill leaves those of the others. */
  lemma {:induction false} DroppingKeepsOthers(hits: seq<Hit>, gone: string, skill: string, key: string)
    ensures skill == gone ==> Count(Dropping(hits, gone), skill, key) == 0
    ensures skill != gone ==>
      && Count(Dropping(hits, gone), skill, key) == Count(hits, skill, key)
      && FirstOf(Dropping(hits, gone), skill, key) == FirstOf(hits, skill, key)
      && LastOf(Dropping(hits, gone), skill, key) == LastOf(hits, skill, key)
  {
    if hits != [] {
      var n := |hits| - 1;
      DroppingKeepsOthers(hits[..n], gone, skill, key);
      if hits[n].skill != gone {
        OneMoreHit(Dropping(hits[..n], gone), hits[n], skill, key);
      }
    }
  }

  lemma InStepRemoval(t: Tables, hits: seq<Hit>, id: string)
    requires InStep(t, hits)
    ensures InStep(Deleted(t, id), Dropping(hits, id))
  {
    var after := Deleted(t, id);
    forall skill, key
      ensures (skill, key) in after.downloads <==> Count(Dropping(hits, id), skill, key) > 0
    {
      DroppingKeepsOthers(hits, id, skill, key);
    }
    forall p | p in after.downloads
      ensures Summarises(after.downloads[p], Dropping(hits, id), p.0, p.1)
    {
      DroppingKeepsOthers(hits, id, p.0, p.1);
      assert Summarises(t.downloads[p], hits, p.0, p.1);
    }
  }

  /** For every history, each counter of the table says exactly how often, when first and when last its
      key downloaded its skill since the skill was last deleted. */
  lemma {:induction false} TablesAgree(h: History)
    ensures InStep(After(h), Live(h))
    decreases h
  {
    if h.Next? {
      TablesAgree(h.before);
      var t, hits := After(h.before), Live(h.before);
      match h.event {
        case Removal(id) => InStepRemoval(t, hits, id);
        case Download(skill, key, at) =>
          if Recorded(t, skill, key) {
            InStepDownload(t, hits, Hit(skill, key, at));
          }
        case Upsert(_, _) =>
        case NewKey(_, _) =>
      }
    }
  }

  // --- The report counts the live hits -----------------------------------------------------------

  function CountIds(clients: seq<ClientStats>, key: string): nat {
    if clients == [] then 0 else CountIds(clients[1..], key) + (if clients[0].id == key then 1 else 0)
  }

  /** The hits of a skill by any of these clients. */
  function HitsBy(clients: seq<ClientStats>, skill: string, hits: seq<Hit>): nat {
    if clients == [] then 0 else HitsBy(clients[1..], skill, hits) + Count(hits, skill, clients[0].id)
  }

  function HitsOn(entries: seq<SkillStats>, hits: seq<Hit>): nat {
    if entries == [] then 0 else HitsOn(entries[1..], hits) + CountSkill(hits, entries[0].id)
  }

  lemma {:induction false} HitsByMore(clients: seq<ClientStats>, skill: string, hits: seq<Hit>, hit: Hit)
    ensures HitsBy(clients, skill, hits + [hit])
         == HitsBy(clients, skill, hits) + (if hit.skill == skill then CountIds(clients, hit.key) else 0)
  {
    if clients != [] {
      HitsByMore(clients[1..], skill, hits, hit);
      assert (hits + [hit])[..|hits|] == hits;
    }
  }

  lemma {:induction false} HitsByNone(clients: seq<ClientStats>, skill: string)
    ensures HitsBy(clients, skill, []) == 0
  {
    if clients != [] {
      HitsByNone(clients[1..], skill);
    }
  }

  /** When every hit's client is listed once, the list accounts for every hit of the skill. */
  lemma {:induction false} HitsByAll(clients: seq<ClientStats>, skill: string, hits: seq<Hit>)
    requires forall i | 0 <= i < |hits| && hits[i].skill == skill :: CountIds(clients, hits[i].key) == 1
    ensures HitsBy(clients, skill, hits) == CountSkill(hits, skill)
    decreases |hits|
  {
    if hits == [] {
      HitsByNone(clients, skill);
    } else {
      var n := |hits| - 1;
      assert forall i | 0 <= i < n :: hits[..n][i] == hits[i];
      HitsByAll(clients, skill, hits[..n]);
      HitsByMore(clients, skill, hits[..n], hits[n]);
      assert hits[..n] + [hits[n]] == hits;
    }
  }

  lemma {:induction false} HitsOnMore(entries: seq<SkillStats>, hits: seq<Hit>, hit: Hit)
    ensures HitsOn(entries, hits + [hit]) == HitsOn(entries, hits) + Ids(entries)[hit.skill]
  {
    if entries != [] {
      HitsOnMore(entries[1..], hits, hit);
      assert (hits + [hit])[..|hits|] == hits;
    }
  }

  lemma {:induction false} HitsOnNone(entries: seq<SkillStats>)
    ensures HitsOn(entries, []) == 0
  {
    if entries != [] {
      HitsOnNone(entries[1..]);
    }
  }

  lemma {:induction false} HitsOnAll(entries: seq<SkillStats>, hits: seq<Hit>)
    requires forall i | 0 <= i < |hits| :: Ids(entries)[hits[i].skill] == 1
    ensures HitsOn(entries, hits) == |hits|
    decreases |hits|
  {
    if hits == [] {
      HitsOnNone(entries);
    } else {
      var n := |hits| - 1;
      assert forall i | 0 <= i < n :: hits[..n][i] == hits[i];
      HitsOnAll(entries, hits[..n]);
      HitsOnMore(entries, hits[..n], hits[n]);
      assert hits[..n] + [hits[n]] == hits;
    }
  }

  lemma {:induction false} SumIsHitsBy(clients: seq<ClientStats>, skill: string, hits: seq<Hit>)
    requires forall i | 0 <= i < |clients| :: clients[i].downloads == Count(hits, skill, clients[i].id)
    ensures Sum(clients) == HitsBy(clients, skill, hits)
  {
    if clients != [] {
      SumIsHitsBy(clients[1..], skill, hits);
    }
  }

  lemma {:induction false} SumIsHitsOn(entries: seq<SkillStats>, hits: seq<Hit>)
    requires forall i | 0 <= i < |entries| :: entries[i].downloads == CountSkill(hits, entries[i].id)
    ensures SumEntries(entries) == HitsOn(entries, hits)
  {
    if entries != [] {
      SumIsHitsOn(entries[1..], hits);
    }
  }

  lemma {:induction false} ListedOnce(t: Tables, clients: seq<ClientStats>, skill: string, key: string)
    requires Sound(t) && (skill, key) in t.downloads
    requires forall i | 0 <= i < |clients| :: clients[i].id == key ==> clients[i] == ClientOf(t, skill, key)
    ensures CountIds(clients, key) == multiset(clients)[ClientOf(t, skill, key)]
  {
    if clients != [] {
      ListedOnce(t, clients[1..], skill, key);
      assert clients == [clients[0]] + clients[1..];
    }
  }

  lemma LiveInTable(t: Tables, hits: seq<Hit>, i: nat)
    requires InStep(t, hits) && i < |hits|
    ensures (hits[i].skill, hits[i].key) in t.downloads && hits[i].skill in t.skills && hits[i].key in t.keys
  {
    CountZero(hits, hits[i].skill, hits[i].key);
    assert Matching(hits[i], hits[i].skill, hits[i].key);
  }

  /** Every client of an entry is one of the table's, with its counter. */
  lemma ClientsOfEntry(t: Tables, e: SkillStats, i: nat)
    requires Sound(t) && IsEntry(t, e) && i < |e.clients|
    ensures (e.id, e.clients[i].id) in t.downloads && e.clients[i] == ClientOf(t, e.id, e.clients[i].id)
  {
    assert e.clients[i] in multiset(e.clients);
    assert e.clients[i] in ClientSet(t, e.id);
  }

  lemma EntryCountsHits(t: Tables, hits: seq<Hit>, e: SkillStats)
    requires InStep(t, hits) && IsEntry(t, e)
    ensures e.downloads == CountSkill(hits, e.id)
  {
    forall i | 0 <= i < |e.clients|
      ensures e.clients[i].downloads == Count(hits, e.id, e.clients[i].id)
    {
      ClientsOfEntry(t, e, i);
      assert Summarises(t.downloads[(e.id, e.clients[i].id)], hits, e.id, e.clients[i].id);
    }
    SumIsHitsBy(e.clients, e.id, hits);
    forall i | 0 <= i < |hits| && hits[i].skill == e.id
      ensures CountIds(e.clients, hits[i].key) == 1
    {
      LiveInTable(t, hits, i);
      forall k | 0 <= k < |e.clients|
        ensures e.clients[k].id == hits[i].key ==> e.clients[k] == ClientOf(t, e.id, hits[i].key)
      {
        ClientsOfEntry(t, e, k);
      }
      ListedOnce(t, e.clients, e.id, hits[i].key);
      assert hits[i].key in ClientsOf(t, e.id);
      assert ClientOf(t, e.id, hits[i].key) in ClientSet(t, e.id);
    }
    HitsByAll(e.clients, e.id, hits);
  }

  // --- Numbers of clients and dates ---------------------------------------------------------------

  function KeysOn(hits: seq<Hit>, skill: string): set<string> {
    set hit | hit in hits && hit.skill == skill :: hit.key
  }

  function AllKeys(hits: seq<Hit>): set<string> {
    set hit | hit in hits :: hit.key
  }

  lemma {:induction false} SameSize(t: Tables, skill: string, keys: set<string>, clients: set<ClientStats>)
    requires Sound(t) && forall k | k in keys :: (skill, k) in t.downloads
    requires clients == set k | k in keys :: ClientOf(t, skill, k)
    ensures |clients| == |keys|
    decreases |keys|
  {
    if keys != {} {
      var k :| k in keys;
      var c := ClientOf(t, skill, k);
      assert clients - {c} == set x | x in keys - {k} :: ClientOf(t, skill, x);
      SameSize(t, skill, keys - {k}, clients - {c});
    }
  }

  lemma HitOf(t: Tables, hits: seq<Hit>, skill: string, key: string)
    requires InStep(t, hits)
    ensures (skill, key) in t.downloads <==> exists hit :: hit in hits && Matching(hit, skill, key)
  {
    CountZero(hits, skill, key);
  }

  lemma EntryCountsKeys(t: Tables, hits: seq<Hit>, e: SkillStats)
    requires InStep(t, hits) && IsEntry(t, e)
    ensures e.uniqueClients == |KeysOn(hits, e.id)|
  {
    var keys := ClientsOf(t, e.id);
    assert |e.clients| == |multiset(e.clients)| == |ClientSet(t, e.id)|;
    SameSize(t, e.id, keys, ClientSet(t, e.id));
    forall k
      ensures k in keys <==> k in KeysOn(hits, e.id)
    {
      HitOf(t, hits, e.id, k);
      if k in keys {
        var hit :| hit in hits && Matching(hit, e.id, k);
      }
      if k in KeysOn(hits, e.id) {
        var hit :| hit in hits && hit.skill == e.id && hit.key == k;
        assert Matching(hit, e.id, k);
      }
    }
    assert keys == KeysOn(hits, e.id);
  }

  lemma KeysUsedAreLive(t: Tables, hits: seq<Hit>)
    requires InStep(t, hits)
    ensures KeysUsed(t) == AllKeys(hits)
  {
    forall k
      ensures k in KeysUsed(t) <==> k in AllKeys(hits)
    {
      if k in KeysUsed(t) {
        var p :| p in t.downloads && p.1 == k;
        HitOf(t, hits, p.0, p.1);
      }
      if k in AllKeys(hits) {
        var hit :| hit in hits && hit.key == k;
        HitOf(t, hits, hit.skill, k);
        assert (hit.skill, k) in t.downloads;
      }
    }
  }

  lemma {:induction false} LatestIsMaximum(clients: seq<ClientStats>)
    ensures Latest(clients).None? <==> clients == []
    ensures Latest(clients).Some? ==>
      && (exists i | 0 <= i < |clients| :: clients[i].last == Latest(clients).value)
      && forall i | 0 <= i < |clients| :: clients[i].last <= Latest(clients).value
  {
    if clients != [] {
      LatestIsMaximum(clients[1..]);
      if clients[1..] != [] {
        var i :| 0 <= i < |clients[1..]| && clients[1..][i].last == Latest(clients[1..]).value;
        assert clients[i + 1].last == Latest(clients[1..]).value;
      }
    }
  }

  ghost predicate Chronological(hits: seq<Hit>) {
    forall i, j | 0 <= i <= j < |hits| :: hits[i].at <= hits[j].at
  }

  lemma {:induction false} DroppingIndex(hits: seq<Hit>, skill: string, i: nat, j: nat) returns (k: nat, m: nat)
    requires i <= j < |Dropping(hits, skill)|
    ensures k <= m < |hits| && hits[k] == Dropping(hits, skill)[i] && hits[m] == Dropping(hits, skill)[j]
    decreases |hits|
  {
    var n := |hits| - 1;
    var kept := Dropping(hits[..n], skill);
    if j < |kept| {
      k, m := DroppingIndex(hits[..n], skill, i, j);
    } else if i < |kept| {
      var last;
      k, last := DroppingIndex(hits[..n], skill, i, i);
      m := n;
    } else {
      k, m := n, n;
    }
  }

  lemma {:induction false} LiveChronological(h: History)
    requires Steady(h)
    ensures Chronological(Live(h))
    decreases h
  {
    if h.Next? {
      LiveChronological(h.before);
      if h.event.Removal? {
        var hits, id := Live(h.before), h.event.id;
        forall i, j | 0 <= i <= j < |Dropping(hits, id)|
          ensures Dropping(hits, id)[i].at <= Dropping(hits, id)[j].at
        {
          var k, m := DroppingIndex(hits, id, i, j);
        }
      }
    }
  }

  /** The date of an entry is that of the skill's latest live download. */
  ghost predicate Dated(last: Option<int>, hits: seq<Hit>, skill: string) {
    match last
    case None => forall hit | hit in hits :: hit.skill != skill
    case Some(at) =>
      && (exists hit | hit in hits :: hit.skill == skill && hit.at == at)
      && forall hit | hit in hits && hit.skill == skill :: hit.at <= at
  }

  ghost predicate HitAt(hits: seq<Hit>, skill: string, key: string, at: int) {
    exists i | 0 <= i < |hits| :: Matching(hits[i], skill, key) && hits[i].at == at
  }

  lemma HitAtLonger(hits: seq<Hit>, skill: string, key: string, at: int)
    requires hits != [] && HitAt(hits[..|hits| - 1], skill, key, at)
    ensures HitAt(hits, skill, key, at)
  {
    var front := hits[..|hits| - 1];
    var i :| 0 <= i < |front| && Matching(front[i], skill, key) && front[i].at == at;
    assert hits[i] == front[i];
  }

  /** In chronological order the first hit is the earliest and the last one the latest. */
  lemma {:induction false} FirstAndLast(hits: seq<Hit>, skill: string, key: string)
    requires Chronological(hits)
    ensures FirstOf(hits, skill, key).Some? <==> LastOf(hits, skill, key).Some?
    ensures FirstOf(hits, skill, key).Some? ==>
      && HitAt(hits, skill, key, FirstOf(hits, skill, key).value)
      && HitAt(hits, skill, key, LastOf(hits, skill, key).value)
    ensures forall i | 0 <= i < |hits| && Matching(hits[i], skill, key) ::
      FirstOf(hits, skill, key).Some? && FirstOf(hits, skill, key).value <= hits[i].at <= LastOf(hits, skill, key).value
  {
    if hits != [] {
      var n := |hits| - 1;
      var front := hits[..n];
      assert forall i | 0 <= i < n :: front[i] == hits[i];
      FirstAndLast(front, skill, key);
      if FirstOf(front, skill, key).Some? {
        HitAtLonger(hits, skill, key, FirstOf(front, skill, key).value);
        HitAtLonger(hits, skill, key, LastOf(front, skill, key).value);
      }
    }
  }

  /** In a steady history each counter's dates are the earliest and the latest of its hits. */
  lemma CounterDates(h: History, skill: string, key: string)
    requires Steady(h) && (skill, key) in After(h).downloads
    ensures var u, hits := After(h).downloads[(skill, key)], Live(h);
      && HitAt(hits, skill, key, u.first) && HitAt(hits, skill, key, u.last)
      && forall i | 0 <= i < |hits| && Matching(hits[i], skill, key) :: u.first <= hits[i].at <= u.last
  {
    TablesAgree(h);
    LiveChronological(h);
    assert Summarises(After(h).downloads[(skill, key)], Live(h), skill, key);
    FirstAndLast(Live(h), skill, key);
  }

  lemma HitBeforeDate(t: Tables, hits: seq<Hit>, e: SkillStats, i: nat)
    requires InStep(t, hits) && IsEntry(t, e) && Chronological(hits) && i < |hits| && hits[i].skill == e.id
    ensures e.last.Some? && hits[i].at <= e.last.value
  {
    var key := hits[i].key;
    LiveInTable(t, hits, i);
    var c := ClientOf(t, e.id, key);
    assert key in ClientsOf(t, e.id);
    assert c in ClientSet(t, e.id);
    assert c in multiset(e.clients);
    LatestIsMaximum(e.clients);
    assert Summarises(t.downloads[(e.id, key)], hits, e.id, key);
    FirstAndLast(hits, e.id, key);
    assert Matching(hits[i], e.id, key);
  }

  lemma DateIsAHit(t: Tables, hits: seq<Hit>, e: SkillStats) returns (k: nat)
    requires InStep(t, hits) && IsEntry(t, e) && Chronological(hits) && e.last.Some?
    ensures k < |hits| && hits[k].skill == e.id && hits[k].at == e.last.value
  {
    LatestIsMaximum(e.clients);
    var i :| 0 <= i < |e.clients| && e.clients[i].last == e.last.value;
    ClientsOfEntry(t, e, i);
    var key := e.clients[i].id;
    assert Summarises(t.downloads[(e.id, key)], hits, e.id, key);
    FirstAndLast(hits, e.id, key);
    k :| 0 <= k < |hits| && Matching(hits[k], e.id, key) && hits[k].at == LastOf(hits, e.id, key).value;
  }

  lemma EntryDated(t: Tables, hits: seq<Hit>, e: SkillStats)
    requires InStep(t, hits) && IsEntry(t, e) && Chronological(hits)
    ensures Dated(e.last, hits, e.id)
  {
    forall i | 0 <= i < |hits| && hits[i].skill == e.id
      ensures e.last.Some? && hits[i].at <= e.last.value
    {
      HitBeforeDate(t, hits, e, i);
    }
    if e.last.Some? {
      var k := DateIsAHit(t, hits, e);
      assert hits[k] in hits;
    }
  }

  /** The statistics agree with the event log, for every history of upserts, cascading deletions, new
      keys and downloads. */
  lemma StatsAgree(h: History, report: Report)
    requires Sound(After(h)) && IsReport(After(h), report)
    ensures report.totalDownloads == SumEntries(report.skills) == |Live(h)|
    ensures report.uniqueClients == |AllKeys(Live(h))|
    ensures forall e | e in report.skills ::
      && e.downloads == Sum(e.clients) == CountSkill(Live(h), e.id)
      && e.uniqueClients == |KeysOn(Live(h), e.id)|
      && (Steady(h) ==> Dated(e.last, Live(h), e.id))
  {
    var t, hits := After(h), Live(h);
    TablesAgree(h);
    if Steady(h) {
      LiveChronological(h);
    }
    forall e | e in report.skills
      ensures e.downloads == Sum(e.clients) == CountSkill(hits, e.id)
      ensures e.uniqueClients == |KeysOn(hits, e.id)|
      ensures Steady(h) ==> Dated(e.last, hits, e.id)
    {
      EntryCountsHits(t, hits, e);
      EntryCountsKeys(t, hits, e);
      if Steady(h) {
        EntryDated(t, hits, e);
      }
    }
    SumIsHitsOn(report.skills, hits);
    forall i | 0 <= i < |hits|
      ensures Ids(report.skills)[hits[i].skill] == 1
    {
      LiveInTable(t, hits, i);
    }
    HitsOnAll(report.skills, hits);
    KeysUsedAreLive(t, hits);
  }
}
