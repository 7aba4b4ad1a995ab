/** Indexing from GitHub: an indexing run over the stream that discovery yields for the identities the
    run itself found fresh. */
module Service {
  import opened Catalog
  import opened Store
  import opened IndexPool
  import opened IndexPoolConfluence
  import opened Indexing
  import opened Run
  import Discovery
  import Folder
  import opened Identity
  import Reconcile
  import Source

  /** What discovery is set up with, and what it sees of the outside world: whether the official catalog
      loads, the network, and the schedules of its pools. Searches are followed for ten pages. */
  datatype GitHub = GitHub(
    settings: Folder.Settings, concurrency: nat, maxPages: nat, catalogLoads: bool, net: Discovery.Network,
    fetches: Source.Chooser)

  lemma WelcomeIsCanonical(freshIds: set<string>, stream: seq<Candidate>)
    requires forall k | 0 <= k < |stream| :: Source.Welcome(freshIds, stream[k])
    ensures CanonicalAll(stream) && forall k | 0 <= k < |stream| :: Worthy(freshIds, stream[k])
  {
  }

  /** What the counters and the table of a run over `stream` show, whatever the auditor answers and however
      the run ends: nothing skipped as fresh or for its stars, every hash looked up in the snapshot as it
      would have been in the live table, no row touched but those of the candidates taken. */
  ghost predicate Shows(start: Rows, table: Rows, result: Stats, chunks: seq<seq<Candidate>>, tables: seq<Rows>,
                        stream: seq<Candidate>, taken: nat) {
    && taken <= |stream| && Concat(chunks) == stream[..taken] && result.discovered == taken
    && result.skipped.stars == 0 && result.skipped.recent == 0
    && LookupsLive(start, chunks, tables)
    && TableKept(start, table, stream[..taken])
  }

  lemma RunShows(env: Env, sn: Snapshot, start: Rows, table: Rows, stats: Stats, chunks: seq<seq<Candidate>>,
                 tables: seq<Rows>, stream: seq<Candidate>, taken: nat)
    requires Ledger(env, sn, start, table, stats, chunks, tables)
    requires taken <= |stream| && Concat(chunks) == stream[..taken] && stats.discovered == taken
    requires DistinctIds(stream) && forall k | 0 <= k < |stream| :: Source.Welcome(sn.freshIds, stream[k])
    ensures Shows(start, table, stats, chunks, tables, stream, taken)
  {
    WelcomeIsCanonical(sn.freshIds, stream);
    LedgerConcludes(env, sn, start, table, stats, chunks, tables, stream, taken);
  }

  /** Discovery for a set of fresh identities: the candidates it yields, and what it fetched for them. */
  method DiscoverStream(hub: GitHub, freshIds: set<string>)
    returns (stream: seq<Candidate>, failure: Option<Source.DiscoveryFault>, ghost fetched: seq<Item>)
    requires hub.concurrency >= 1
    ensures DistinctIds(stream) && forall k | 0 <= k < |stream| :: Source.Welcome(freshIds, stream[k])
    ensures failure.None? ==> |stream| <= |fetched| && fetched == Expected(hub, freshIds)
    ensures failure.Some? && failure.value.PageFailed? ==> Source.Rooted(failure.value.fault)
  {
    var source := new Source.Stream(hub.settings, hub.concurrency, freshIds, hub.maxPages);
    failure := source.DiscoverStream(hub.catalogLoads, hub.net, hub.fetches);
    stream, fetched := source.yielded, source.fetched;
  }

  /** The first file of every identity on any page, fresh identities aside. */
  ghost function Expected(hub: GitHub, freshIds: set<string>): seq<Item> {
    Discovery.Keep(Discovery.Naming(hub.settings.unicode), freshIds, {}, Discovery.AllItems(hub.net, hub.maxPages))
  }

  /** The part of a run after its drain. */
  method Consume(indexer: Indexer, stream: seq<Candidate>, fails: bool, cutoff: int, snapshotLoads: bool,
                 choose: Chooser, ghost verdict: string -> Assessment, ghost guarded: bool)
    returns (fault: Option<RunFault>, ghost taken: nat)
    requires indexer.Valid() && indexer.batch == [] && IsBlank(indexer.stats) && indexer.chunks == []
      && indexer.tables == []
    requires DistinctIds(stream)
    requires forall k | 0 <= k < |stream| :: Source.Welcome(FreshOf(indexer.Table(), cutoff), stream[k])
    requires guarded ==> GateHolds(indexer.Table(), indexer.assessor.passed)
    modifies indexer, indexer.assessor, indexer.assessor.store
    ensures indexer.Valid() && old(indexer.assessor.passed) <= indexer.assessor.passed
    ensures Shows(old(indexer.Table()), indexer.Table(), indexer.stats, indexer.chunks, indexer.tables, stream, taken)
    ensures indexer.stats.Accounted() <= taken
    ensures fault.None? ==> snapshotLoads && !fails && taken == |stream| == indexer.stats.Accounted()
    ensures fault.None? && Obeys(choose, verdict) ==>
      (TimelessRows(indexer.Table()), indexer.stats)
      == LiveLoop(indexer.env, verdict, FreshOf(old(indexer.Table()), cutoff), TimelessRows(old(indexer.Table())),
                  stream)
    ensures fault != Some(BatchFailed(Cancelled(Collector)))
    ensures guarded ==> GateHolds(indexer.Table(), indexer.assessor.passed)
  {
    ghost var start := indexer.Table();
    ghost var sn := Snapshot(FreshOf(start, cutoff), HashesOf(start));
    WelcomeIsCanonical(sn.freshIds, stream);
    fault, taken := indexer.Discover(cutoff, snapshotLoads, stream, fails, choose, verdict, Obeys(choose, verdict),
                                     guarded);
    RunShows(indexer.env, sn, start, indexer.Table(), indexer.stats, indexer.chunks, indexer.tables, stream, taken);
    AccountedIs(indexer.stats);
  }

  /** A run whose source is GitHub. The consumer's verdicts inside discovery are arbitrary, among them
      those that agree with the run's own. */
  method IndexFromGitHub(indexer: Indexer, hub: GitHub, now: int, counted: bool, loads: nat -> bool,
                         turns: nat -> Reconcile.Turn, snapshotLoads: bool, choose: Chooser,
                         ghost verdict: string -> Assessment)
    returns (fault: Option<RunFault>, failure: Option<Source.DiscoveryFault>,
             ghost stream: seq<Candidate>, ghost taken: nat, ghost start: Rows)
    requires indexer.Valid() && hub.concurrency >= 1
    modifies indexer, indexer.assessor, indexer.assessor.store
    ensures indexer.Valid() && old(indexer.assessor.passed) <= indexer.assessor.passed
    ensures DistinctIds(stream)
    ensures forall k | 0 <= k < |stream| :: Source.Welcome(FreshOf(start, now - FRESHNESS), stream[k])
    ensures Shows(start, indexer.Table(), indexer.stats, indexer.chunks, indexer.tables, stream, taken)
    ensures indexer.stats.Accounted() <= taken
    ensures fault.None? ==> failure.None? && taken == |stream| == indexer.stats.Accounted()
    ensures fault.None? ==> |stream| <= |Expected(hub, FreshOf(start, now - FRESHNESS))|
    ensures fault.None? && indexer.env.auditing ==> forall id | id in start :: start[id].llmChecked
    ensures DrainedBefore(indexer.env.auditing, old(indexer.Table()), turns, start)
    ensures fault.None? && Obeys(choose, verdict) ==>
      (TimelessRows(indexer.Table()), indexer.stats)
      == LiveLoop(indexer.env, verdict, FreshOf(start, now - FRESHNESS), TimelessRows(start), stream)
    ensures fault != Some(BatchFailed(Cancelled(Collector)))
    ensures failure.Some? && failure.value.PageFailed? ==> Source.Rooted(failure.value.fault)
    ensures GateHolds(old(indexer.Table()), old(indexer.assessor.passed)) ==>
      GateHolds(indexer.Table(), indexer.assessor.passed)
  {
    ghost var guarded := GateHolds(indexer.Table(), indexer.assessor.passed);
    fault := indexer.Begin(counted, loads, turns);
    start := indexer.Table();
    var cutoff := now - FRESHNESS;
    if fault.Some? {
      NothingCounted([]);
      LedgerStart(indexer.env, Snapshot(FreshOf(start, cutoff), HashesOf(start)), start, indexer.stats);
      RunShows(indexer.env, Snapshot(FreshOf(start, cutoff), HashesOf(start)), start, start, indexer.stats,
               indexer.chunks, indexer.tables, [], 0);
      BlankIsNone(indexer.stats);
      return fault, None, [], 0, start;
    }
    var ids := indexer.assessor.store.FreshSkillIDs(cutoff);
    assert ids == FreshOf(start, cutoff);
    var yielded;
    ghost var fetched;
    yielded, failure, fetched := DiscoverStream(hub, ids);
    fault, taken := Consume(indexer, yielded, failure.Some?, cutoff, snapshotLoads, choose, verdict, guarded);
    stream := yielded;
  }
}
