# ExitSkills: a verified model of the indexing service

This project models the parts of ExitSkills that decide what ends up in the catalog, and proves what
they promise. Four components are covered.

- **The indexing pipeline.** `IndexPool` is the worker pool of one batch as a state machine: bounded
  workers, a closed job channel, a bounded FIFO of results, a collector that cancels on the first
  error, and the mutex that paces audits. Goroutine scheduling is the order of the actions; clock
  readings, audit answers, store failures and the caller's cancellation are their payloads. On top of it,
  `Run` is the imperative run (drain, snapshots, buffer of ten, filter, counters), `Reconcile` the
  drain of unassessed rows, `Store` the three tables with their constraints, and `Publication` the life
  of a database over drains, batches cut short at any step, and restarts.
- **GitHub discovery.** `Identity` makes slugs and identities and says which of them the HTTP interface
  accepts; `Folder` fetches one candidate with the recursive walk under a shared budget; `RateGate` is
  the retry loop and the shared gate whose mutex is held while waiting; `FetchPool` is the pool of one
  page; `Discovery` holds the filter of seen identities and its independence from completion order;
  `Source` is the stream of the three passes, and `Service` the run that consumes it.
- **The sliding-window limiter** (`Limiter`): the pruned list of a key against a log that is never pruned.
- **Download statistics.** `AdminStats` is the one-pass aggregate and a statement of the report that
  does not mention the algorithm; `Downloads` ties both to the log of everything that ever happened.

## How the pieces fit

Each pool is proved on its own, for every schedule, and the imperative code above it plays schedules
picked by a chooser: a function of the batch or page number, the step number and the state. A choice the
machine cannot follow is replaced by one it can. `Run.ScheduleHasChooser` and `Source.ScheduleHasChooser`
show that this loses no schedule: each complete one is the only one that some chooser picks, and for a
batch whose answers are those of an auditor the chooser obeys that auditor.

`Service.IndexFromGitHub` is the composition: a drain, discovery for the identities the run found fresh,
and an indexing run over exactly the candidates discovery yields. Inside discovery the consumer's verdicts
are arbitrary, so the behaviours of the composition include those in which a refused batch and the end of
the stream coincide, as they do in the program.

Time is an integer clock in nanoseconds whose readings never decrease. The database has one writer. The
content hash is an arbitrary function of the file list. Searches are followed up to a page limit that is a
parameter of the stream, ten in the program. Confluence, and with it the view of a run as one loop over
its candidates, is claimed for auditors that answer as a function of contents, for batches that return no
error and for timestamps erased. What was skipped and why, which rows may have changed, the agreement of the
snapshots with the live table, the balance of the counters and the publication gate hold for any auditor
and however the run ends. Independence of the completion order is claimed for passes in which no
repository occurs twice; distinctness of the stream needs no such assumption.

Two properties one might expect do not hold of the code, and the model says exactly when they do:

- Not every generated identity is accepted by the HTTP interface. `Identity.GeneratedIdAccepted` gives
  the condition, and `Identity.UnservableIdentity` an acceptable repository for which it fails.
- Relative paths lose a leading dot when the skill is at the repository's root.
  `Folder.RelativeAtRoot` gives the condition, `Folder.DotFilesCollide` two files that end up under one
  name, and `Folder.RelativeBelow` shows that nothing is lost below the root.

## Model

| member | source | states |
|---|---|---|
| IndexPoolProgress.EveryStepCounts | internal/indexer/indexer.go:203-249 | whoever moves, a step of the batch pool uses up a unit of a bound fixed when the batch starts |
| IndexPoolProgress.SomeStep | internal/indexer/indexer.go:203-249 | deadlock freedom: in every reachable state before the return, some worker or the collector can move |
| IndexPoolProgress.PoolTerminates | internal/indexer/indexer.go:203-256 | every schedule has at most 10 steps a candidate, one a worker and three more; one that cannot be extended has returned |
| IndexPoolSafety.JobsAccountedKept | internal/indexer/indexer.go:205-224 | each job taken is, exactly once, settled, in a worker's hands or abandoned after a cancellation |
| IndexPoolSafety.ResultsAccountedKept | internal/indexer/indexer.go:207-249 | each settled result is, exactly once, received, queued or being sent, so every send is drained |
| IndexPoolSafety.SettleHonest | internal/indexer/indexer.go:367-400 | what one candidate does to the table is all or nothing and matches its counter, except that a statement which took effect and still reported an error is in no counter; it blames only a cancellation that happened; a stored row passed, is accepted by the constraints and has storable files |
| IndexPoolSafety.SettledFate | internal/indexer/indexer.go:367-400 | for every answer and every outcome of the statement, written out: when a candidate is stored, removed or left alone, every column of the row it gets, how it is counted, and which error it gives |
| IndexPoolSafety.ProvenanceKept | internal/indexer/indexer.go:231-245 | the collector records an error it received, before it cancels, and never a cancellation by itself |
| IndexPoolSafety.ErrorHalts | internal/indexer/indexer.go:216-245 | after an error was recorded or the caller has cancelled, a worker that takes up another candidate drops it and ends, at any point of any schedule |
| IndexPoolGate.AuditsPaced | internal/indexer/indexer.go:334-352 | under every interleaving, cancelled waiters included, one audit at most is in flight and each starts no earlier than the end of the previous one plus the interval |
| IndexPoolGate.GateKeptByPool | internal/indexer/indexer.go:302-314 | at every point of every schedule each row marked as checked has a recorded passing audit of one of its canonical files, status pass and scores in 5..10 |
| IndexPoolGate.PassedAreEarned | internal/indexer/indexer.go:360-378 | the record of passing audits that the gate speaks of is exact: contents are added to it when an audit of them returns pass with both scores at least 5, and never otherwise |
| IndexPoolOutcome.BatchReturns | internal/indexer/indexer.go:230-256 | conservation: a return without error accounts for each eligible candidate exactly once; any return leaves the initial table plus whole effects, each candidate at most once, and counters of those |
| IndexPoolOutcome.RootCause | internal/indexer/indexer.go:231-256 | the returned error is the caller's cancellation or a candidate's own error, never a cancellation the pool caused |
| IndexPoolConfluence.Confluence | internal/indexer/indexer.go:175-257 | for distinct identities every schedule that returns no error leaves the table, timestamps aside, and the counters of one loop over the candidates in order |
| IndexPoolConfluence.SequentialMeans | internal/indexer/indexer.go:367-400 | what the loop does, written out: its three counters as numbers of candidates, the fate and the columns of each candidate's row, and no other row changed |
| IndexPoolConfluence.AbortIsWhole | internal/indexer/indexer.go:367-400 | after any return of any batch, identities repeated or not, each identity's row is as before or shows the whole effect of one candidate of that identity |
| Indexing.LoopIsSequential | internal/indexer/indexer.go:175-196 | filtering first and handling the eligible candidates afterwards equals one pass that decides each candidate in turn |
| Indexing.LoopConcat | internal/indexer/indexer.go:116-130 | batches compose: the pass over a concatenation is the passes over its parts, counters added |
| Indexing.SnapshotAgrees | internal/indexer/indexer.go:104-112 | over a whole loop of distinct identities, hashes loaded once give the same table and counters as hashes looked up in the live table |
| Indexing.LookupsAgree | internal/indexer/indexer.go:104-112 | as long as no batch before touched a candidate's identity, its lookup in the snapshot is its lookup in the live table and the filter decides the same |
| Indexing.FoldKeepsOthers | internal/indexer/indexer.go:367-400 | whatever a batch settled, rows of identities that the filter let nothing through for are as they were |
| Indexing.SkippedConcat | internal/indexer/indexer.go:176-196 | skip counters add up over batches |
| Indexing.WorthyNotSkipped | internal/indexer/indexer.go:178-189 | a stream of popular candidates none of which is fresh is never skipped as such |
| Indexing.FilterMeans | internal/indexer/indexer.go:176-196 | the filter, written out: each skip counter is the number of candidates meeting its condition (seen lately; else at most ten stars; else a stored hash equal to that of the files), and exactly the others are let through |
| Indexing.EligibleConcat | internal/indexer/indexer.go:116-130 | filtering batch after batch lets through what filtering everything at once would |
| Indexing.LiveLoopMeans | internal/indexer/indexer.go:104-163 | the live loop over distinct identities, written out: all counters, the row of every candidate let through, and no other row |
| Indexing.SeenAgain | internal/indexer/indexer.go:190-194 | a stored candidate met again, no longer fresh, is counted as unchanged and keeps its row if its content hash is the stored one, and is let through if not |
| Run.PlayOut | internal/indexer/indexer.go:203-256 | a played schedule is the one its chooser picks and the machine follows to its return; if the choices obey an auditor, so does the schedule |
| Run.ScheduleHasChooser | internal/indexer/indexer.go:203-256 | every complete schedule whose answers are an auditor's is the one and only schedule that some chooser obeying this auditor picks |
| Run.Indexer.Commit | internal/indexer/indexer.go:381-399 | the store's statements applied in settling order give the pool's table |
| Run.Indexer.Sift | internal/indexer/indexer.go:176-196 | the filter's loop: its counters and the eligible candidates meet the written-out description of the filter |
| Run.Indexer.RunPool | internal/indexer/indexer.go:203-256 | table, pacing and audits after a batch are those of some complete schedule of the pool |
| Run.Indexer.IndexBatch | internal/indexer/indexer.go:175-257 | for any schedule, auditor and end of the batch: the skip counters and the eligible candidates meet the written-out filter, rows of identities it let nothing through for are untouched, the rest changed by whole effects of eligible candidates, each at most once and counted; counters never exceed the candidates and equal them without error; the error is none of the pool's making; the gate is kept; with an obeying auditor table and counters are the loop's; table, gate, counters and error are those of a complete schedule of the pool over the candidates let through, with no more workers than configured |
| Run.Indexer.Flush | internal/indexer/indexer.go:116-130 | the buffer is emptied into exactly one batch; its counters, each tied to that batch, are added, error or not; rows of other identities are untouched |
| Run.Indexer.Yield | internal/indexer/indexer.go:131-137 | batch k is finished before candidate 10k+1 is accepted, the buffer stays below ten, batches plus buffer are the stream so far, and the ledger of skips and tables stays true, refused or not |
| Run.Indexer.FlushFull | internal/indexer/indexer.go:131-137 | the tenth candidate empties the buffer and closes the books on everything accepted so far |
| Run.Indexer.Stream | internal/indexer/indexer.go:138-154 | the books balance after every candidate; a refusal leaves batches that concatenate to what was taken |
| Run.Indexer.Finish | internal/indexer/indexer.go:158-163 | the last short batch closes the books on the whole stream |
| Run.Indexer.FromSource | internal/indexer/indexer.go:138-163 | the batches concatenate to the candidates taken; a source's error leaves the buffer out of the counters |
| Run.Indexer.Discover | internal/indexer/indexer.go:104-163 | a run from the snapshots on: whatever its end, a ledger of what each batch found and skipped; without error and for an obeying auditor, the live loop over the stream |
| Run.Indexer.Begin | internal/indexer/indexer.go:99-102 | a run starts with nothing counted and indexes only when nothing unassessed remains; what the drain has done by then; the gate is kept |
| Run.Indexer.DrainAndDiscover | internal/indexer/indexer.go:99-163 | a run with its books and its ledger, before what they mean is drawn from them |
| Run.LedgerLive | internal/indexer/indexer.go:104-112 | in a run over distinct identities, every candidate's lookup in the snapshot agrees with the table its batch found |
| Run.LedgerConcludes | internal/indexer/indexer.go:104-163 | what the ledger of a finished run says: skips as filtered, untouched rows, live lookups |
| Run.Indexer.Run | internal/indexer/indexer.go:99-163 | the whole run, however it ends: discovered equals the candidates taken and bounds the sum of the six other counters, with equality on success; each skip counter is the number of candidates taken that meet its condition; for distinct identities every hash looked up is the live table's at that moment; over a stream without fresh or unpopular candidates none is counted as such; only rows of candidates let through change; the drain before decided its rows by their own answers, and nothing unassessed remains when indexing starts; the gate is kept; no error of the pool's own making; on success with an obeying auditor, counters and rows are those of the written-out rules |
| Run.RunTwice | internal/indexer/indexer.go:99-163 | two runs: what the first stored and the second meets after seven days without an update is counted as unchanged and left alone if its content hash is the same, and let through if it differs, however the second run ends |
| Service.IndexFromGitHub | internal/indexer/indexer.go:99-163 | discovery and indexing together, with the same fresh identities: the stream is distinct, popular, canonical and never fresh; however the run ends nothing is skipped as fresh or for its stars, every hash looked up is live, only rows of candidates taken have changed and the gate is kept; without error all yielded candidates are accounted for and, for an obeying auditor, table and counters are those of one live loop |
| Service.Consume | internal/indexer/indexer.go:104-163 | the same for the run after its drain, over any stream that discovery may yield |
| Reconcile.Assessor.AuditWithCooldown | internal/indexer/indexer.go:334-352 | an audit begins no earlier than the end of the cooldown and renews it; an interrupted wait changes nothing |
| Reconcile.Assessor.HandleOne | internal/indexer/indexer.go:281-317 | one row, in terms of what the auditor answered in its turn: it stays exactly if it has contents and the answer is pass with both scores at least 5, with the answer's columns, new dates and all else unchanged; otherwise it is gone; or nothing changes and each reason to stop has its cause |
| Reconcile.Assessor.HandleNext | internal/indexer/indexer.go:281-317 | one more row of the sorted list: decided by its own answer and gone from the list, or untouched with the reason to stop |
| Reconcile.Assessor.HandleBatch | internal/indexer/indexer.go:281-318 | after any number of rows, exactly the rows handled have left the sorted list of unassessed ones; a stop has its cause in the row reached |
| Reconcile.Assessor.Reconcile | internal/indexer/indexer.go:259-322 | termination, processed rows in ascending order and each decided by its own turn, all others untouched, never an empty batch, nothing unassessed left on success, and otherwise a stop before the end with its cause in the row reached |
| Reconcile.DrainIsExact | internal/indexer/indexer.go:281-317 | wherever the drain stops, earlier rows were decided once by their own answers, kept exactly if these pass, and the failing row and all others are untouched |
| Reconcile.DrainDecides | internal/indexer/indexer.go:302-314 | a handled row stays exactly if it has contents and its answer is pass with both scores at least 5; then it carries the answer's columns and all others unchanged, else it is gone |
| Reconcile.DrainKeepsGate | internal/indexer/indexer.go:293-314 | draining publishes nothing without a passing audit of that row's canonical file |
| Publication.GateAlways | internal/indexer/indexer.go:99-163 | the publication gate is an invariant of drains, batches and restarts in any order, each cut short anywhere |
| Publication.RestartKeepsChecked | internal/store/sqlite.go:160-168 | a restart removes exactly the rows without a canonical file, never a checked one, and changes none |
| Publication.ReadsReturnPublished | internal/store/sqlite.go:201-235 | whatever has happened since the database was created, reads restricted to checked rows return only audited, passing rows |
| Store.PendingIsCanonical | internal/store/sqlite.go:275-283 | contents handed to the auditor are those of a canonical file of the row |
| Store.PendingIsFirst | internal/store/sqlite.go:275-283 | pending contents are those of the first SKILL.md, without one those of the first SKILLS.md, else empty |
| Store.SQLite.UpsertSkill | internal/store/sqlite.go:171-194 | which writes succeed, and that a failed one changes nothing |
| Store.SQLite.DeleteSkill | internal/store/sqlite.go:196-199 | deletion cascades to the counters and keeps the foreign keys |
| Store.SQLite.UnassessedSkills | internal/store/sqlite.go:275-297 | the first unassessed rows in ascending order, each with its canonical contents |
| Store.SQLite.UpdateSkillAssessment | internal/store/sqlite.go:299-319 | only an unassessed row is marked, and otherwise the table is unchanged |
| Store.SQLite.GetSkill | internal/store/sqlite.go:229-235 | a row is returned exactly when it is visible to the reader |
| Store.SQLite.RecordSkillDownload | internal/store/sqlite.go:384-390 | a download is counted exactly when skill and key exist |
| Orders.AscendingLists | internal/store/sqlite.go:283 | the listing by id has every element once, in order |
| Orders.LessIs | internal/store/sqlite.go:283 | the order of strings: at the first difference one of them has ended or has the smaller character |
| Orders.SortedUnique | internal/store/admin_stats.go:57-71 | sorted permutations without ties are equal, so no result depends on the sorting algorithm |
| Identity.Slugify | internal/github/client.go:950-967 | the loop with its early exit computes the slug |
| Identity.SlugShape | internal/github/client.go:950-967 | slugs have at most 100 characters of [a-z0-9-], no leading, trailing or doubled dash |
| Identity.SlugFixed | internal/github/client.go:950-967 | the strings of that shape are exactly the fixed points of slug making |
| Identity.SlugIdempotent | internal/github/client.go:950-967 | making a slug twice changes nothing |
| Identity.SlugEmpty | internal/github/client.go:950-967 | a slug is empty exactly when the name has no letter a-z and no digit in lower case |
| Identity.SlugIsWords | internal/github/client.go:950-967 | a slug is the name's maximal runs of letters a-z and digits, in lower case and in order, joined by single dashes, cut after 100 characters, without a dash at the end |
| Identity.IdsCollide | internal/github/client.go:606-616 | two identities are equal exactly when repository and slug are |
| Identity.IdentityIs | internal/github/client.go:606-616 | the identity of a skill file: its repository and the slug of the folder it is in, at the root that of the repository's name |
| Discovery.NamingSeparates | internal/github/client.go:606-616 | identities of different repositories never collide |
| Identity.ValidID | internal/httpapi/handler.go:422-438 | the acceptor accepts three well-formed parts and nothing else |
| Identity.AcceptedIs | internal/httpapi/handler.go:422-438 | the accepted identities written out: three parts of 1 to 100 characters of the alphabet between slashes, none of them a dot or two |
| Identity.GeneratedIdAccepted | internal/github/client.go:606-616 | a generated identity is accepted exactly when the repository's name is and the folder's name has a letter or digit |
| Identity.UnservableIdentity | internal/httpapi/handler.go:428 | an acceptable repository whose generated identity is refused |
| Folder.Client.GetContent | internal/github/client.go:625-647 | contents are served exactly when they are small UTF-8 text without NUL |
| Folder.Client.WalkFolder | internal/github/client.go:669-712 | on every return that does not abort, the budget grew by exactly the number and size of the returned files, and is never exceeded; exhausted rate limits surface from any depth; every file is a listed one with the contents served for it; a failed listing fails the walk and nothing else does without obliging to abort; and unless the budget is used up, no readable file that fits was passed over down to the greatest depth |
| Folder.Client.WalkNested | internal/github/client.go:700-708 | a nested folder is covered or left out for a failure that does not oblige to abort; the budget grows by exactly what it adds |
| Folder.Client.FolderFiles | internal/github/client.go:654-668 | at most 64 files and 4 MiB, sorted by path, the skill file among them, and the folder fully explored if neither limit was reached |
| Folder.Client.FilesAround | internal/github/client.go:583-592 | a candidate's files: the skill file alone if its folder cannot be listed; otherwise that and listed files, by path, and below both limits nothing of the folder passed over |
| Folder.Client.FetchCandidate | internal/github/client.go:560-604 | exactly which answers make an item too unpopular, unreadable or a candidate; exhausted rate limits and a cancelled context are never counted as a content failure nor hidden by the fallback; an abort has a cause; a candidate has its identity, slug, name, description, stars and canonical file, and its files are those of its folder by the listing at the moment it was asked for |
| Folder.EndpointIs | internal/github/client.go:655-658 | where the contents of the root and of a folder are asked for |
| Folder.FoundIsCanonical | internal/github/client.go:588-601 | a candidate found under a canonical name satisfies what the publication gate asks of its source |
| Folder.RelativeBelow | internal/github/client.go:697 | below the root, a relative path is what follows the folder |
| Folder.RelativeAtRoot | internal/github/client.go:697 | at the root, a path survives exactly when it does not start with a dot |
| Folder.DotFilesCollide | internal/github/client.go:697 | two files of a root folder that get the same name |
| RateGate.ResetIsLatestWanted | internal/github/client.go:877-907 | the next attempt is never in the past: it is the latest moment the server asked for, and minutes that double only if that has passed or there is none |
| RateGate.DelayHonoured | internal/github/client.go:888-894 | a delay in seconds (section 10.2.3 of RFC 9110) is waited for and doubled by each retry |
| RateGate.Gate.Block | internal/github/client.go:841-847 | a block only ever extends, and other resources are untouched |
| RateGate.Gate.Observe | internal/github/client.go:849-868 | a successful answer with nothing remaining blocks until its reset |
| RateGate.Gate.RateLimitReset | internal/github/client.go:877-907 | which answers are rate limits, written out (every 429; a 403 with Retry-After, nothing remaining or a mention of the limit; nothing else), and until when |
| RateGate.Gate.Await | internal/github/client.go:829-839 | whoever passes, the clock has reached what the resource was blocked until |
| RateGate.Gate.GetJSON | internal/github/client.go:764-810 | four requests at most; giving up on rate limits means four limited answers, each read no earlier than the reset of the one before, the first three recorded in the gate; every other end is explained by what the call met at its last step; without cancellation the first answer that is not a rate limit decides, and four limited ones exhaust the call |
| RateGate.GateHoldsInEveryRun | internal/github/client.go:829-847 | in every run of any number of workers the gate equals the maximum of the recorded resets, one worker at most is inside, and nobody passes before a reset recorded by then |
| RateGate.CancelledDoNotPass | internal/github/client.go:829-839 | a cancelled call does not pass a gate that it finds open, and a cancelled wait ends the call |
| RateGate.RetriesBounded | internal/github/client.go:764-810 | in every run no call sends more than four requests, and exhaustion under a constant Retry-After of s seconds took at least 7s seconds |
| RateGate.EveryStepCounts | internal/github/client.go:764-810 | a call takes boundedly many steps, whatever the others do |
| RateGate.SomeStep | internal/github/client.go:829-847 | while a call is under way some worker can move |
| FetchPool.JobsAccountedKept | internal/github/client.go:483-507 | each item taken is, exactly once, in a worker's hands, queued, received or abandoned |
| FetchPoolOutcome.EveryStepCounts | internal/github/client.go:490-557 | each step uses up a unit of a bound fixed when the page starts |
| FetchPoolOutcome.SomeStep | internal/github/client.go:490-557 | no reachable state is stuck before the page returns |
| FetchPoolOutcome.PoolTerminates | internal/github/client.go:476-558 | every schedule has at most five steps an item, one a worker and three more; one that cannot be extended has returned |
| FetchPoolOutcome.OriginalKept | internal/github/client.go:499-504 | because sending precedes cancelling, the first error in the channel is nobody's echo |
| FetchPoolOutcome.RootCause | internal/github/client.go:524-550 | a page's error is the consumer's refusal, exhausted rate limits or the caller's cancellation, never one the pool caused |
| FetchPoolOutcome.NoYieldAfterError | internal/github/client.go:534-550 | once an error is recorded it stays and nothing more is yielded |
| FetchPoolOutcome.ErrorHalts | internal/github/client.go:494-550 | an error sent or recorded has cancelled the workers or is about to, and a worker that takes up an item after that drops it without fetching |
| FetchPoolOutcome.YieldsAreDistinct | internal/github/client.go:543-550 | in any run the consumer gets candidates of different items, each as promised |
| FetchPoolOutcome.PageReturns | internal/github/client.go:523-541 | a page without error received every item once; found, skipped and failed add up to the items |
| Discovery.ReadTree | internal/github/client.go:411-429 | the skill files of a tree in the order of depth, then path |
| Discovery.TreeItemsAre | internal/github/client.go:411-429 | the items of a tree are exactly those of its blobs named SKILL.md or SKILLS.md, at any path |
| Discovery.Collect | internal/github/client.go:441-451 | a pass aborts exactly when some failure obliges it to, and otherwise loses only the failed trees |
| Discovery.CollectMetadata | internal/github/client.go:308-328 | the same for metadata, sorted by name |
| Discovery.MetadataWhateverTheOrder | internal/github/client.go:308-328 | the order in which metadata arrives does not show |
| Discovery.KeepIsFilter | internal/github/client.go:246-259 | what is kept has new, distinct identities, none fresh, and every new identity that is not fresh is kept |
| Discovery.KeepConcat | internal/github/client.go:151-216 | with the set of seen identities carried along, filtering page after page keeps what filtering everything at once would |
| Discovery.KeepPerRepository | internal/github/client.go:246-259 | the filter treats each repository as if it were alone |
| Discovery.KeptWhateverTheOrder | internal/github/client.go:411-451 | whatever order the trees of a pass finish in, the same items are kept, in the same order within each repository |
| Discovery.StreamWhateverTheOrder | internal/github/client.go:143-219 | for two worlds that differ only in the order in which the trees of each page finish, the whole stream fetches the same items, in the same order within each repository |
| Discovery.AllItemsAreOffered | internal/github/client.go:175-216 | a complete discovery looks at exactly the skill files of official trees, of the trees on every ranked page n with pages 1 to n-1 full and k*100 below the total, and of every such page of code search |
| Discovery.FetchedIsOffered | internal/github/client.go:143-219 | what it fetches is offered and not fresh, one item of each such identity |
| Discovery.EarlierPassWins | internal/github/client.go:143-219 | what an official repository offers is not fetched from a ranked page or code search instead, nor what a ranked page offers from code search |
| Discovery.WinnerIsShallowest | internal/github/client.go:411-430 | of all files of a pass with one identity the shallowest is kept, and the first by path at that depth |
| Source.Stream.Sift | internal/github/client.go:246-259 | the loop over the shared set keeps what the filter says and marks every identity |
| Source.Stream.Offer | internal/github/client.go:246-259 | after a page is offered the filter stands as after one long page, and what it kept is distinct, canonical, never fresh and new to the stream |
| Source.Stream.FetchCandidates | internal/github/client.go:476-558 | yields and error are those of some complete run of the pool |
| Source.ScheduleHasChooser | internal/github/client.go:476-558 | every complete schedule of a page is the one and only schedule that some chooser picks |
| Source.Stream.TakePage | internal/github/client.go:246-263 | after a page the stream is still distinct and welcome, the filter stands as after one long page, and without error every fetched item is accounted for |
| Source.Stream.OfficialRepositories | internal/github/client.go:228-268 | without error the official pass offers the skill files of exactly the loaded repositories to the filter, and accounts for what it keeps |
| Source.Stream.PopularRepositories | internal/github/client.go:331-379 | the same for the ranked pass: its pages up to the last one, or up to a search that fails without obliging to abort |
| Source.Stream.CodeSearch | internal/github/client.go:175-216 | the same for the pages of code search for one file name |
| Source.Stream.DiscoverStream | internal/github/client.go:143-219 | over all three passes the identities yielded are pairwise distinct and never fresh, with more than ten stars and the canonical file; without error the items fetched are one of each identity offered on any page that the searches get to, fresh ones aside, and each is yielded or passed over for its stars or its contents; an error is none of discovery's own making |
| Source.StreamSuitsIndex | internal/indexer/indexer.go:178-189 | the candidates of such a stream, and every batch of them, are never filtered as fresh or for their stars, by the filter itself and in the loops |
| Limiter.Limiter.Allow | internal/httpapi/limiter.go:25-47 | the index loop computes the answer and the pruned list, and touches no other key |
| Limiter.PrunedListIsWindow | internal/httpapi/limiter.go:28-35 | after any history a key's list, pruned at any later time, is that window of the full log |
| Limiter.StoredIsWindow | internal/httpapi/limiter.go:35-46 | right after a call the stored list is the window of the log and no longer than the limit |
| Limiter.VerdictMatchesLog | internal/httpapi/limiter.go:36-46 | a request is denied exactly when the window is full, remaining is the room left, and an admitted request is told the window in whole seconds |
| Limiter.AtMostLimitPerWindow | internal/httpapi/limiter.go:25-47 | in every real interval of the window's length at most limit requests of a key are admitted over any history |
| Limiter.KeysAreIndependent | internal/httpapi/limiter.go:30 | a key's admitted requests are those it would have had alone |
| Limiter.DenialReset | internal/httpapi/limiter.go:36-42 | a denial announces when the oldest request leaves, and its lower bound of one is never needed |
| Limiter.ResetSoundAndTight | internal/httpapi/limiter.go:36-42 | a retry reset seconds later is admitted and one sooner than reset minus one is denied |
| AdminStats.Aggregate.ScanSkill | internal/store/admin_stats.go:15-36 | the scanned entries and their index agree with the rows |
| AdminStats.Aggregate.AddClient | internal/store/admin_stats.go:38-53 | entries, index, total and client set stay those of the rows counted so far; a row of an unknown skill changes nothing |
| AdminStats.Aggregate.Finish | internal/store/admin_stats.go:55-72 | the report is the sorted entries, each with sorted clients |
| AdminStats.Collect | internal/store/sqlite.go:392-422 | for skills as one query found them and counters joined by a later one, whatever changed in between: the aggregate meets a description of the report (ordered permutations, sums, counts and dates per skill) over those skills and their counters |
| AdminStats.ReportMeans | internal/store/admin_stats.go:15-72 | every column of every skill and client of the report, scores of checked skills only, skills and clients by downloads, most first, and then by id |
| AdminStats.ReportUnique | internal/store/sqlite.go:392-422 | given tables have one report, so the order of the joined rows does not show |
| Downloads.Play | internal/store/sqlite.go:171-199 | the store's operations carry a history of events out |
| Downloads.TablesAgree | internal/store/sqlite.go:384-390 | for every history each counter says how often, when first and when last its key downloaded its skill since the skill was last deleted |
| Downloads.CounterDates | internal/store/sqlite.go:384-390 | with a steady clock these dates are the earliest and the latest |
| Downloads.StatsAgree | internal/store/sqlite.go:392-422 | for every history the total is the number of live downloads, the sum over skills and, per skill, over clients; unique clients are the distinct keys; dates are the latest |

## Left out

- Transport, JSON, base64, cryptography and SQL drivers: their results are parameters.
- Reconcile.Assessor.HandleOne: a statement of the drain that reports an error has had no effect. In the pool a statement may have taken effect and still report an error; in the drain that outcome leaves the table of a drain stopped after this row, which `Reconcile.DrainIsExact` and `Publication.GateAlways` cover for every stopping point.
- Unicode tables, `path.Dir` and `path.Base` outside clean relative paths such as git trees have, and the front matter that gives names and descriptions: parameters or out of scope.
- Rate limits: `Retry-After` values that overflow 64-bit nanoseconds, and reset dates before year 1, which Go's zero time would absorb.
- Limiter.Limiter.Allow: the number of seconds is exact, where the code goes through floating point, so windows of more than 2^53 nanoseconds may differ by rounding.
- Store.SQLite.UnassessedSkills: for two files of the same name the model takes the first, where SQL leaves the choice open.
- FetchPoolOutcome.YieldsAreDistinct: what the pool knows of a fetched candidate is what every fetch promises (identity, slug, name, stars, canonical file, limits); which files of its folder it has is stated for the fetch itself.
- Publication.ReadsReturnPublished: scores above ten are excluded by the table's constraints; the auditor's own range check is not modelled.
- Source.Stream.DiscoverStream: the consumer's work inside a yield is represented by its verdict; the work itself is that of Service.Consume on the same candidates.
- Fairness: a worker may wait for a mutex for as long as others keep taking it; what is proved is that some worker can always move and that each call takes boundedly many steps of its own.
- The official page's scraping, the counters that only feed logs, heartbeats, the scheduler, key security, request routing and response formatting.
- `internal/store/postgres.go`: the same operations on another database.
