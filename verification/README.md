# ActionsPlane: a verified model

ActionsPlane watches, audits and repairs GitHub Actions workflows across many repositories. This
project models the parts of it whose correctness is not obvious from reading one function, and
proves what they are for.

* **Shared state under concurrency.** Sweep leases with skewed clocks and heartbeats (`Leases`),
  webhook intake with crashes and redelivery (`Delivery`), double-checked token minting
  (`TokenMint`), the bounded fleet sweep with its rate gate (`BoundedGather`) and the shared
  conditional-request cache (`ConditionalGet`) are state machines. Their steps are what runs between
  two awaits or two statements; the theorems hold in every state of every run.
* **Tables.** The guarded upserts of runs and jobs (`RunUpserts`), the findings table (`Findings`),
  the SARIF ingest (`SarifIngest`), which sources it keeps apart (`SourceScope`), when a scanner's
  finding and a native one share a row (`SharedRows`), any run of audits and ingests
  (`FindingHistory`) and the verified-closed roll-up (`VerifiedClosed`). Each SQL statement is
  one atomic step on a map, with SQL's three-valued comparison where NULL matters.
* **Algorithms.** The line diff (`LineDiff`), the column layout (`Layers`), pipelines as connected
  components and the graph they come from (`Pipelines`), the LRU cache (`EtagCache`), the percentile
  (`Percentile`). The loops are the source's loops, proved against declarative specifications.
* **Rewriting and auditing.** The pin classifier (`Pins`), the step rewrites and the pin audit
  (`Operations`), which findings the whole native audit can report (`NativeAudit`), pin campaigns from
  preview to pull request (`Campaigns`) and drift severity (`Drift`), on the job/step tree.

`Common`, `Sorting` and `Strings` hold what these share: options and results, Python's stable sort,
and the few Python string operations involved.

Objects the source updates in place are classes (`InstallationCache`, `LeaseTable`, `RunTable`,
`JobTable`, `FindingsTable`, `CampaignFindings`, `GraphBuilder`, `Campaign`); each method is proved
equal to a function of the old state, and the lemmas are about that function.

Run `dafny verify dfyconfig.toml` to check everything.

## Where the code and its documentation part ways

The model follows the code. Each of these is a theorem.

* `PipelinesTab.tsx:48` says a node inside a cycle keeps column 0. It does exactly when every edge
  into it comes from a node that has a cycle upstream (`Layers.CycleNodeColumn`); `x -> a <-> b` puts
  `a` in column 1 (`Layers.CycleNodeCanMove`).
* `worker.py:74` and `worker.py:102` say a heartbeat always succeeds. It does in every run exactly
  when the TTL exceeds the time between two heartbeats plus the claim's lag plus twice the clock
  skew (`Leases.HeartbeatAlwaysSucceeds`, which also covers the degenerate case of leases that last
  no time at all). A heartbeat whose claim raises dies unnoticed, and then the reconcile sweep's
  180 s lease no longer keeps a second worker out (`Leases.ReconcileExclusion`).
* `executor/service.py:57` says a file that does not parse passes the pin step unchanged. It does not
  if the editor can load it and the map holds its refs. `Campaigns.UnparsedFileEscapes` is a campaign
  of two repositories whose reviewed diff shows one edited file and whose pull request edits two. An
  apply opens nothing but the reviewed edits, in every case, exactly when the review shows no edit at
  all or no such file has a resolvable ref that no file before it resolves
  (`Campaigns.BindingIffNothingEscapes`).
* `sarif_ingest_service.py:4-6` says an ingest never disturbs native findings or another tool's. Over
  all tables and documents at paths without a colon, ingests filed under a tool keep open what they
  report, close what they no longer report and leave the findings of colon-free tools alone exactly
  when the tool's own name has no colon, no `%` or `_` and no backslash and is not `external`
  (`SourceScope.ScopedIffClean`). Rows of native types are left alone exactly when the name, up to its
  first colon, is no native type (`SourceScope.NativeAloneIff`), and rows that an audit can have written
  exactly when no result of the tool can share one (`SharedRows.ReportableAloneIff`). `external` is special because a run whose
  tool name is the empty string is filed under it but resolved under the empty name
  (`SarifIngest.EmptyNameIsNeverResolved`, `SourceScope.UnnamedRunClosesNothing`).
* `sarif_ingest.py:8-9` says findings of scanners never collide with native ones. At paths without a
  colon a result shares its row with something the audit can report exactly when the audit can report,
  at the result's path, the type and locus that its tool, rule and line spell (`SharedRows.SharesIff`).
  A tool without a colon in its name has such a result exactly when it is called like one of the six
  types that are reported with a locus; `unverified_publisher` counts if publishers are checked, which
  no caller that stores findings asks for (`SharedRows.ColonFreeToolSharesIff`; for any name,
  `SharedRows.ToolSharesIff`). With a colon in a result's path every tool has one
  (`SharedRows.ColonInUriShares`); with a colon in a workflow's file name, every tool without a slash
  or a colon in its name does (`SharedRows.ColonInNativePathIff`).
* `sarif_ingest.py:20-21` says a security score moves the severity upward. A low score also moves it
  down (`SarifIngest.ScoreMovesUpwardIff`, `SarifIngest.ScoreLowersAnError`).
* `concurrency.py:28` says the order of the results is not guaranteed. It is the input order
  (`BoundedGather.SuccessesKeepOrder`).
* A version bump is an edit whenever it lists changes (`operations.py:49-50`). A second bump never
  changes the workflow, but it still lists changes, each from a reference to itself, exactly when the
  target ref ends in white space and some step uses the action (`Operations.BumpTwiceIsOnce`,
  `Operations.BumpListsNothingNew`).

## Model

| member | source | states |
|---|---|---|
| Leases.LeaseTable.ClaimLease | src/actionsplane/db/repository.py:1039-1057 | True iff the claimant holds the row afterwards, with the new expiry; False only if another holder's lease is live; no other lease changes |
| Leases.ExclusionIffTtlCovers | src/actionsplane/sync/worker.py:68-122 | in every run two different holders are never both in the sweep's body, if and only if unrefreshed stay + lag + 2 skew < TTL; the stay is the job timeout, or the heartbeat's cadence if that is shorter and heartbeats cannot raise |
| Leases.TtlTooShortOverlaps | src/actionsplane/db/repository.py:1048-1055 | otherwise a run of four steps puts two holders in the body at once |
| Leases.FixedSweepExclusion | src/actionsplane/sync/worker.py:298 | the sweeps with a fixed 3600 s lease and a 900 s job timeout exclude iff lag + 2 skew < 2700 |
| Leases.ReconcileExclusion | src/actionsplane/sync/worker.py:85-122 | the reconcile sweep with its 180 s lease, 60 s heartbeat and 900 s job timeout excludes iff delay + lag + 2 skew < 120 while heartbeats never raise, and never excludes if one may raise and die |
| Leases.BodyBlocksOthers | src/actionsplane/db/repository.py:1048-1055 | while a holder is in the body every other holder's claim fails |
| Leases.RunKeepsInvariant | src/actionsplane/sync/worker.py:93-122 | in every state of every run, whoever is in the body holds the row and the row outlives its stay |
| Leases.HeartbeatAlwaysSucceeds | src/actionsplane/sync/worker.py:110-115 | in every run every heartbeat refreshes its own lease, iff the heartbeat's cadence + lag + 2 skew < TTL (or there is no heartbeat, or leases last no time) |
| Leases.OverlapRefusesHeartbeat | src/actionsplane/sync/worker.py:110-115 | otherwise, a run of five steps in which a heartbeat is refused |
| Leases.CrashedHolderIsSuperseded | src/actionsplane/sync/worker.py:69-74 | a claim made a TTL + lag + 2 skew after the last write enters the body, whoever crashed |
| Leases.WaitIsExact | src/actionsplane/db/repository.py:1048-1055 | one unit of time earlier, there is a run in which the claim is refused after a crash |
| RunUpserts.GuardOnStamps | src/actionsplane/db/repository.py:94-112 | which events the guard lets through, NULL stamps included |
| RunUpserts.ThreeValued | src/actionsplane/db/repository.py:97-112 | AND, OR and comparisons with NULL, as SQL has them |
| RunUpserts.RunConverges | src/actionsplane/db/repository.py:127-142 | after any arrivals the stamp is the latest delivered, the columns all come from one arrival, and the outcome is that of the last arrival with that stamp |
| RunUpserts.StaleWritesNothing | src/actionsplane/db/repository.py:97-100 | a redelivery of what is stored, or of anything older, writes no row |
| RunUpserts.OrderAndDuplicatesDoNotMatter | src/actionsplane/db/repository.py:127-142 | if stamps name versions, the row depends on the set of versions delivered and not on order or repetition |
| RunUpserts.OutcomeIsOrderFreeIff | src/actionsplane/db/repository.py:101-112 | every order of the same arrivals ends with the same outcome iff all arrivals of the latest stamp agree on it |
| RunUpserts.CompletionBelongsToOutcome | src/actionsplane/ingestor/events.py:40-65 | the completion time of the stored row always belongs to its conclusion and stamp |
| RunUpserts.TableIsPerRun | src/actionsplane/db/repository.py:127-142 | each row of the table is that of its run's own arrivals |
| RunUpserts.LastPerIdIsFinal | src/actionsplane/db/repository.py:157 | de-duplication keeps, once, exactly the last snapshot of each run in the batch |
| RunUpserts.StatementIsFold | src/actionsplane/db/repository.py:145-164 | the one multi-row statement leaves the table one guarded upsert per row would leave |
| RunUpserts.RunTable.UpsertRun | src/actionsplane/db/repository.py:127-142 | the row is written iff it is new, has no stamp, an earlier one, or the same with another status or conclusion; then it has the event's columns and keeps a payload the event leaves out; the count says so and nothing else changes |
| RunUpserts.RunTable.UpsertRuns | src/actionsplane/db/repository.py:145-164 | the table after upserting the last snapshot of each run in turn; the count is the number of runs whose row is new or gives way |
| RunUpserts.JobConverges | src/actionsplane/db/repository.py:182-206 | the stored job is, whole, the last arrival of the highest status rank |
| RunUpserts.JobNeverRegresses | src/actionsplane/db/repository.py:183-194 | further arrivals never lower the stored rank |
| RunUpserts.JobByStatus | src/actionsplane/db/repository.py:173-206 | after any arrivals the stored job is, whole, the last completed one; before there is one, the last in progress; before that, the last of all |
| RunUpserts.JobTable.UpsertJob | src/actionsplane/db/repository.py:182-206 | a completed event always lands, a completed row gives way only to one, a row in progress only to in_progress or completed, any other row to any event; no other row changes |
| Delivery.NothingIsLost | src/actionsplane/ingestor/app.py:95-116 | in every run, with crashes anywhere, a recorded or acknowledged delivery had been enqueued |
| Delivery.OneJobPerRetention | src/actionsplane/sync/queue.py:25-34 | two jobs of one delivery are at least KEEP_RESULT apart, derived from a queue that refuses the ids of unfinished jobs and of kept results |
| Delivery.RedeliveryRepairs | src/actionsplane/ingestor/app.py:95-116 | in every run, however handlers interleave, one that accepts a delivery looked it up without finding it, enqueued it, recorded it, in that order and nothing else, and made a job iff the queue did not refuse the id |
| Delivery.RedeliveryGoesThrough | src/actionsplane/ingestor/app.py:102-116 | from any state in which an id is not recorded, a redelivery that does not fail enqueues and records it, without a second job while the queue refuses the id |
| Delivery.HandlerIsNeverStuck | src/actionsplane/ingestor/app.py:95-116 | in any state a handler that has not responded can take its next step |
| Delivery.RecordedIsFinal | src/actionsplane/db/repository.py:979-1002 | once recorded with no handler past its lookup, a delivery gets no further job until its record is pruned |
| TokenMint.SingleFlight | src/actionsplane/github/factory.py:39-72 | at most one mint per installation is in flight, the creation of its lock under the meta lock included |
| TokenMint.LiveTokenIsTaken | src/actionsplane/github/factory.py:60-72 | a caller that looks and finds a token with more than a minute to live takes it; only such a token or a newly minted one is ever taken |
| TokenMint.TokensAreOnesOwn | src/actionsplane/github/factory.py:60-78 | in every run whoever has a token has one minted for its own installation and cache |
| TokenMint.MintsOnlyWhenStale | src/actionsplane/github/factory.py:64-70 | a mint begins only when the caller's cache holds no token with more than a minute to live, at that moment |
| TokenMint.MintsAreNeeded | src/actionsplane/github/factory.py:60-72 | of two mints for one cache and installation, the earlier token had at most a minute to live when the later one began |
| TokenMint.OneMintWithoutExpiry | src/actionsplane/github/factory.py:60-72 | without expiry a cache and installation see at most one successful mint |
| TokenMint.OneEtagCachePerInstallation | src/actionsplane/github/factory.py:32-36 | clients share an ETag cache exactly when they are for the same installation |
| TokenMint.EtagCacheIsKept | src/actionsplane/github/factory.py:75-78 | an installation's ETag cache, once created, is the same object from then on |
| BoundedGather.NeverMoreThanLimit | src/actionsplane/sync/concurrency.py:22-38 | in every schedule at most `limit` tasks run at once |
| BoundedGather.FewLateFetches | src/actionsplane/sync/worker.py:125-146 | after the rate gate trips, at most limit - 1 further repositories are fetched |
| BoundedGather.FewFetchesAfterReport | src/actionsplane/sync/worker.py:125-146 | the same, counting the fetches after the step that reports a budget below the floor |
| BoundedGather.StartedOnce | src/actionsplane/sync/concurrency.py:32-38 | no task is started twice |
| BoundedGather.EndedWasStarted | src/actionsplane/sync/concurrency.py:32-38 | a task that is no longer waiting was admitted by the semaphore before, or cancelled as it waited |
| BoundedGather.SweepDrains | src/actionsplane/sync/concurrency.py:22-47 | a schedule takes at most five steps a task and never gets stuck before every task has ended |
| BoundedGather.Collect | src/actionsplane/sync/concurrency.py:38-47 | the successes, or a raise exactly when something other than an Exception was raised |
| BoundedGather.SuccessesKeepOrder | src/actionsplane/sync/concurrency.py:39-47 | the result lists every success, in input order |
| BoundedGather.SweepResult | src/actionsplane/sync/concurrency.py:38-47 | in every schedule the result holds a value, in its place, for exactly the tasks that finished with one or found the gate tripped, and is a raise exactly if a task was cancelled |
| EtagCache.EvictIsShortest | src/actionsplane/github/client.py:113-115 | eviction drops exactly the shortest run of oldest entries that restores both caps |
| EtagCache.EvictRestoresCaps | src/actionsplane/github/client.py:113-115 | both caps hold afterwards |
| EtagCache.NewestSurvivesIffItFits | src/actionsplane/github/client.py:102-115 | the entry just stored survives iff it fits on its own; otherwise the cache ends empty |
| EtagCache.RunIsLru | src/actionsplane/github/client.py:71-115 | after any run of reads and writes the order is recency order, every entry is the last written under its key, keys are unique and both caps hold |
| EtagCache.EvictedAreOlder | src/actionsplane/github/client.py:80-84 | whatever a store evicts was used before everything it keeps |
| EtagCache.InstallationCache.Get | src/actionsplane/github/client.py:94-100 | the stored pair, or a miss; a hit moves to the recent end; the byte count stays right |
| EtagCache.InstallationCache.Store | src/actionsplane/github/client.py:102-115 | the new contents, the byte count equal to the sum of sizes, the caps, and what becomes of a body that is too large |
| ConditionalGet.GetCached | src/actionsplane/github/client.py:217-246 | result and cache of one call, with its one retry |
| ConditionalGet.RunKeepsInvariant | src/actionsplane/github/client.py:217-246 | in every interleaving a cached body is the one its URL and ETag name, and an answer in flight is what the server held when it gave it |
| ConditionalGet.OneRetry | src/actionsplane/github/client.py:227-237 | a call sends a second request exactly when the first answer is throttled, and never a third |
| ConditionalGet.CacheIsTransparent | src/actionsplane/github/client.py:217-246 | a call returns the body the server held when it answered, through any evictions and overwrites in between, given strong validators (sections 8.8.3, 13.1.2 and 15.4.5 of RFC 9110) |
| ConditionalGet.FetchedIsRevalidated | src/actionsplane/github/client.py:240-245 | a fetched body that fits is what the next read revalidates |
| Findings.KeyNamesRepo | src/actionsplane/audit/findings.py:43-46 | a fingerprint belongs to one repository, whatever the path, type and locus look like |
| Findings.KeyIsInjective | src/actionsplane/audit/findings.py:43-46 | two native findings at paths without a colon share a fingerprint iff repository, path, type and locus agree |
| Findings.LastSightingShows | src/actionsplane/db/repository.py:528-542 | a sighted row shows its last sighting; first_seen_at is that of the row, or of the first sighting if the row is new |
| Findings.AllUpsertedOpens | src/actionsplane/db/repository.py:528-542 | upserts open exactly the sighted rows and touch no other |
| Findings.AuditOpensExactlySeen | src/actionsplane/audit/service.py:67-101 | an audit leaves open, of its repository, exactly the fingerprints it saw; touches no other repository; keeps every row's identity and first sighting |
| Findings.WrittenIsSeen | src/actionsplane/audit/service.py:91-97 | skipping the repository-level findings already written loses no fingerprint |
| Findings.FindingsTable.UpsertFinding | src/actionsplane/db/repository.py:528-542 | the row is open and shows this sighting, keeps its first_seen_at if it was there, and no other row changes |
| Findings.FindingsTable.ResolveStaleFindings | src/actionsplane/db/repository.py:545-558 | open afterwards is exactly what was open and is of another repository or seen; a row closed now is stamped now, every other is as it was |
| Findings.FindingsTable.AuditRepo | src/actionsplane/audit/service.py:67-101 | the loops of an audit leave the table its specification describes, and count what they wrote |
| FindingHistory.RowsLive | src/actionsplane/db/repository.py:528-558 | over any run of audits and ingests a row stays, under one fingerprint, with its identity and first_seen_at |
| FindingHistory.OthersLeaveRow | src/actionsplane/db/repository.py:545-577 | operations on other repositories leave a row alone |
| FindingHistory.LastAuditDecides | src/actionsplane/audit/service.py:67-101 | a row of its repository is open iff the last audit saw it, whatever came before, and whatever was done since to other repositories or ingested without reporting the row or selecting its type |
| FindingHistory.LastAuditDecidesNative | src/actionsplane/audit/service.py:67-101 | for a native row at a path without a colon: the same, through any later ingests at such paths whose tools are not named, up to a colon, like a native type |
| FindingHistory.NativeRowIsLeftAlone | src/actionsplane/audit/sarif_ingest_service.py:4-6 | such an ingest neither reports a native row nor selects its type, whatever wildcards or escapes its tools have in their names |
| FindingHistory.CleanIngestLeavesAlone | src/actionsplane/audit/sarif_ingest_service.py:31-40 | nor does one of clean documents do so to a row filed under none of its tools |
| FindingHistory.LastIngestDecides | src/actionsplane/audit/sarif_ingest_service.py:21-45 | a row is open iff every resolve pass of the last ingest that selects its type counts it as reported, whatever the tools' names, under the same conditions |
| FindingHistory.LastCleanIngestDecides | src/actionsplane/audit/sarif_ingest_service.py:21-45 | a row is open iff the last clean ingest naming the tool it is filed under reports it |
| SarifIngest.ParseSarif | src/actionsplane/audit/sarif_ingest.py:94-115 | one finding per result and no other, each where its result stands in the document |
| SarifIngest.ParsedInOrder | src/actionsplane/audit/sarif_ingest.py:94-115 | the same of the specification: the finding of result k of run i comes after those of all earlier runs and of k results |
| SarifIngest.FindingOfResult | src/actionsplane/audit/sarif_ingest.py:67-115 | the type, path, locus and message of the finding a result becomes, with the defaults for a missing tool, rule and text |
| SarifIngest.ScoreDecides | src/actionsplane/audit/sarif_ingest.py:31-45 | with a score the severity begins at 9, 7 and 4, whatever the level |
| SarifIngest.LevelOfResult | src/actionsplane/audit/sarif_ingest.py:43-44 | without its own level a result has that of the last rule of its id that has one, or else "warning" |
| SarifIngest.HitsAreApartByLine | src/actionsplane/audit/sarif_ingest.py:67-70 | two hits of one rule in one file are one finding iff they are on the same line |
| SarifIngest.ScoreMovesUpwardIff | src/actionsplane/audit/sarif_ingest.py:20-45 | which scores do not lower what the level stands for: at least 7 on an error, at least 4 on a warning or an unknown level, any on a note or none |
| SarifIngest.ScoreLowersAnError | src/actionsplane/audit/sarif_ingest.py:20-45 | an error with a score of 3 is stored as low, without a score as high |
| SarifIngest.LikeIsScopedIff | src/actionsplane/db/repository.py:561-577 | the LIKE pattern of a name selects exactly the types that begin with the name and a colon, iff the name has no wildcard and no escape character |
| SarifIngest.SelectedHoldsColon | src/actionsplane/db/repository.py:561-577 | the pattern of any name, wildcards and escapes included, selects only types with a colon, so no native one |
| SarifIngest.EmptyNameIsNeverResolved | src/actionsplane/audit/sarif_ingest.py:118-123 | the name findings are filed under is the one resolved iff the run's name is not the empty string |
| SarifIngest.ResolveStaleForSource | src/actionsplane/db/repository.py:561-577 | rows are only ever closed; with a clean tool name the ones closed are exactly the repository's open ones filed under the tool and not seen; the count is how many were closed |
| SarifIngest.IngestSarif | src/actionsplane/audit/sarif_ingest_service.py:21-45 | the loops leave the table the specification describes, whatever order the tools come in; resolved counts the rows closed, each once |
| SarifIngest.IngestIsScoped | src/actionsplane/audit/sarif_ingest_service.py:31-40 | for clean tool names: of the document's tools in its repository exactly the reported findings end open; every other row is as it was |
| SourceScope.ScopedIffClean | src/actionsplane/audit/sarif_ingest_service.py:21-45 | ingests filed under a tool keep what they report open, close what they no longer report, and leave those of other colon-free tools alone, iff the tool's name has no colon, wildcard or escape and is not the one that empty names are filed under |
| SourceScope.NativeAloneIff | src/actionsplane/audit/sarif_ingest_service.py:4-6 | ingests filed under a tool leave rows of native types alone iff the tool's name, up to its first colon, is no native type |
| SourceScope.ColonFreeKeepsReported | src/actionsplane/audit/sarif_ingest_service.py:21-40 | what is reported under any name without a colon is open afterwards, wildcards or not |
| SourceScope.UnnamedRunClosesNothing | src/actionsplane/audit/sarif_ingest.py:118-123 | a finding filed under external stays open although an empty run whose name is the empty string, filed under external too, no longer reports it |
| SourceScope.CleanIngest | src/actionsplane/audit/sarif_ingest_service.py:31-40 | what an ingest of a clean tool, its runs named, does to each row of a plain table |
| SourceScope.OtherName | src/actionsplane/db/repository.py:572 | a pattern that matches its own name, but not literally, also matches another tool's name |
| NativeAudit.AuditPermissions | src/actionsplane/audit/engine.py:52-95 | the loops list exactly the missing and broad permission blocks, of the workflow without a locus and of each job under its id |
| NativeAudit.AuditDeprecations | src/actionsplane/audit/engine.py:101-138 | exactly the references to deprecated majors, and the steps that run a deprecated command under their id or else their name |
| NativeAudit.AuditWorkflow | src/actionsplane/audit/engine.py:171-186 | exactly what each check is to report, in terms of the workflow's text: its permissions, references, scripts and concurrency |
| NativeAudit.FlagsIff | src/actionsplane/audit/engine.py:21-186 | the checks report a type and locus iff the text of the workflow deserves it |
| NativeAudit.DetectDanglingReferences | src/actionsplane/audit/dangling.py:23-73 | exactly the upstreams that no workflow is named and the calls of local files whose base name no workflow has |
| NativeAudit.DanglesIff | src/actionsplane/audit/dangling.py:23-73 | the same for one file, on the text of its calls: their leading dots, ending and base name |
| NativeAudit.AuditFiles | src/actionsplane/audit/service.py:67-97 | exactly the findings of both passes, each at its file's path |
| NativeAudit.CanReportIff | src/actionsplane/audit/engine.py:21-186 | for every path, type and locus: some audit of listed files reports it iff the path is that of an audited file and the type can have that locus |
| SharedRows.SameRowIff | src/actionsplane/audit/findings.py:43-46 | a result and a native finding have one fingerprint iff repository and path agree, the type is the first field of the tool's name and the locus is what follows |
| SharedRows.SharesIff | src/actionsplane/audit/sarif_ingest.py:67-80 | at a path without a colon a result shares its row with something an audit can report iff the audit can report that type and locus there |
| SharedRows.UnpinnedSharesIff | src/actionsplane/audit/engine.py:21-49 | for a tool called unpinned_action: iff the path is audited and the pin audit flags the reference that the rule and the line spell |
| SharedRows.ToolSharesIff | src/actionsplane/audit/sarif_ingest.py:67-80 | a tool of any name has such a result iff the audit can report, under the first field of the name, what the rest of it and one fixed rule spell |
| SharedRows.ColonFreeToolSharesIff | src/actionsplane/audit/sarif_ingest.py:67-80 | a tool without a colon in its name has such a result iff it is called like one of the six types with a locus, publishers being checked for one of them |
| SharedRows.ReportableAloneIff | src/actionsplane/audit/sarif_ingest_service.py:4-6 | ingests filed under a tool leave every row that an audit can have written alone iff no result of the tool can share one |
| SharedRows.UnpinnedActionShares | src/actionsplane/audit/sarif_ingest.py:67-80 | one such pair: rule x of a tool called unpinned_action, and the audit's finding for the reference x:x; rule ./x has no partner |
| SharedRows.ColonInUriShares | src/actionsplane/audit/findings.py:43-46 | with a colon in the result's path every tool has such a pair |
| SharedRows.ColonInNativePathIff | src/actionsplane/github/client.py:329-348 | with a colon in the workflow's file name only, a colon-free tool has such a pair iff its name holds no slash |
| SarifIngest.IngestKeeps | src/actionsplane/audit/sarif_ingest_service.py:21-45 | an ingest keeps identities and first sightings, touches one repository, and leaves the table fit for the next ingest |
| VerifiedClosed.CampaignFindings.SnapshotCampaignFindings | src/actionsplane/db/repository.py:719-760 | a target is added iff the finding is open and of the repositories and types given, with its repository, type and severity; nothing recorded changes, and the count is how many were selected |
| VerifiedClosed.SnapshotAdds | src/actionsplane/db/repository.py:744-760 | a snapshot adds exactly the selected open findings, with their repository and type, and keeps what was recorded |
| VerifiedClosed.SnapshotTwiceIsOnce | src/actionsplane/db/repository.py:744-760 | taking a snapshot again changes nothing |
| VerifiedClosed.CampaignVerification | src/actionsplane/db/repository.py:763-800 | each number counts, once each, the campaign's fingerprints that have a row: all of them or the resolved ones, overall, by repository and by type; the breakdowns add up to the totals |
| VerifiedClosed.RollUpVerifies | src/actionsplane/db/repository.py:772-800 | the same, however the database orders its groups |
| VerifiedClosed.ListViewAgrees | src/actionsplane/db/repository.py:803-823 | the list view shows a campaign iff it targets something, with the totals of its roll-up |
| VerifiedClosed.TargetedIsStable | src/actionsplane/db/repository.py:763-800 | over any later run, targeted stays the snapshot and resolved is exactly its part that is closed now |
| VerifiedClosed.ReauditCountsUnseen | src/actionsplane/audit/service.py:67-101 | after every targeted repository is re-audited, resolved is exactly the targets those audits did not see, whatever has since been ingested that neither reports a target nor selects its type |
| VerifiedClosed.NativeReauditCountsUnseen | src/actionsplane/audit/service.py:67-101 | for native targets: the same, whatever has since been ingested at paths without a colon for tools not named, up to a colon, like a native type |
| VerifiedClosed.OperationCountsUnseen | src/actionsplane/executor/operations.py:273-283 | a campaign from its snapshot to its roll-up: of the findings open when it was created for an operation, resolved is exactly those the last audits of its repositories did not see |
| Pins.ClassifiedName | src/actionsplane/audit/pins.py:49-116 | the parts of a classified reference hold none of the separators |
| Pins.PrintedName | src/actionsplane/audit/pins.py:63-80 | a printed reference is neither local nor Docker and splits back into its parts |
| Pins.ClassifyRefIff | src/actionsplane/audit/pins.py:16-22 | what a ref counts as, on its text: 40 or 64 hex digits, one to three dotted numbers after an optional v, one of five branch names, or none of these |
| Pins.ReadsIff | src/actionsplane/audit/pins.py:49-116 | the classifier finds an owner, repository, subpath and ref iff the text, blanks aside, is owner/repo[/subpath][@ref] of no local path or image |
| Pins.StateIff | src/actionsplane/audit/pins.py:49-116 | the state of a reference, on its text |
| Strings.StripCuts | src/actionsplane/audit/pins.py:68 | stripping takes blanks off both ends and nothing else |
| Operations.PrintReadsBack | src/actionsplane/executor/operations.py:88-89 | parse after print is the identity on owner, repository and subpath, and on the ref up to trailing blanks |
| Operations.PinnedIsSafe | src/actionsplane/executor/operations.py:69-94 | a rewritten reference is SHA-pinned to the resolved commit of the same action, and is not rewritten again |
| Operations.RewriteSteps | src/actionsplane/executor/operations.py:69-94 | the in-place loop rewrites exactly the references the rewrite picks and lists the changes in order |
| Operations.PinWorkflowToSha | src/actionsplane/executor/operations.py:97-110 | every step keeps everything but a reference that names an action by a version tag or branch the map has a SHA for; that one becomes the same action at that SHA; job ids, job-level references and permissions stay; the changes list exactly those steps in order |
| Operations.PinnedIff | src/actionsplane/executor/operations.py:79-89 | a reference is rewritten iff its text reads as owner, repository and a version tag or branch name for which the map holds a SHA, and to exactly that text |
| Operations.MutableIff | src/actionsplane/executor/operations.py:79-84 | which references count as mutable, on their text |
| Operations.RewriteIsEdit | src/actionsplane/executor/operations.py:69-110 | a rewritten workflow differs from the original in the picked references and nothing else, and the changes list them by position |
| Operations.PickedDiffer | src/actionsplane/executor/operations.py:69-94 | with SHAs in the map a step differs afterwards iff it was picked, and then reads as the same action at its SHA |
| Operations.PinTwiceIsOnce | src/actionsplane/executor/operations.py:69-110 | pinning a pinned workflow changes nothing |
| Operations.BumpActionVersion | src/actionsplane/executor/operations.py:180-206 | every step keeps everything but a reference to the action that does not name the target ref; that one becomes the action at it; the changes list those steps in order; a missing action or ref makes it a no-op |
| Operations.BumpedIff | src/actionsplane/executor/operations.py:193-203 | which references a bump rewrites, and to what, on their text |
| Operations.BumpedIsStableIff | src/actionsplane/executor/operations.py:200-203 | a bumped reference names the same action, and is picked again iff the target ref ends in a blank |
| Operations.BumpTwiceIsOnce | src/actionsplane/executor/operations.py:180-206 | a second bump never changes the workflow; it lists changes iff the target ref ends in a blank and some step uses the action |
| Operations.BumpListsNothingNew | src/actionsplane/executor/operations.py:180-206 | one such bump, of a/b from v3 to a v4 with a trailing blank |
| Operations.AuditPins | src/actionsplane/audit/engine.py:21-49 | the findings of the references in order; exactly those of the workflow's references that are flagged, with their severity, on the text |
| Operations.FlagIff | src/actionsplane/audit/engine.py:28-48 | a version tag not proven immutable is medium; no ref, or one that is neither a version tag nor a SHA, is high; everything else is fine |
| Operations.PinningClosesExactly | src/actionsplane/audit/engine.py:21-49 | after pinning, the audit reports exactly what it reports of the references that were not rewritten |
| Campaigns.WantedByRef | src/actionsplane/executor/service.py:67-77 | whether a ref is resolved depends on the ref alone, not on the file it is in |
| Campaigns.ResolveGivesAnswers | src/actionsplane/executor/service.py:49-77 | a file's map holds GitHub's answers for exactly its resolvable refs |
| Campaigns.DryRunRepo | src/actionsplane/executor/service.py:80-128 | one edit, in order, for each file looked at with a step to pin: its path, its blob SHA, its workflow with exactly those references pinned by the map at that file, and the list of them; raises iff a file cannot be loaded or, on a dry run, a mentioned ref is not answered |
| Campaigns.RunIsRight | src/actionsplane/executor/service.py:99-128 | the same of the specification; the map at a file holds GitHub's answers for what it and the files before it mention, or is the given one |
| Campaigns.EditIsRight | src/actionsplane/executor/service.py:113-127 | a file has an edit iff some step has a reference to pin, and what the edit is |
| Campaigns.RaisedIff | src/actionsplane/executor/service.py:99-128 | exactly when a run raises |
| Campaigns.ApplyReproduces | src/actionsplane/executor/service.py:99-128 | if nothing escapes, as when all files parse, any larger map of the same answers gives the same edits, whatever GitHub answers later |
| Campaigns.ApplyChangesMore | src/actionsplane/executor/service.py:99-128 | an apply with a larger map goes through and lists no fewer changes than the preview, and more if a ref that escapes is in the map |
| Campaigns.BindingIffNothingEscapes | src/actionsplane/executor/campaigns.py:80-117 | every apply of the unchanged target, with any larger map of answers, opens the reviewed edits or nothing, iff the review shows no edit or no unparsed file has a resolvable ref that no file before it resolves |
| Campaigns.EscapesIffMisses | src/actionsplane/executor/service.py:57-65 | such a ref is exactly one that the map accumulated so far misses |
| Campaigns.ParsedFilesEscapeNothing | src/actionsplane/executor/service.py:57-65 | that is so whenever every file parses |
| Campaigns.UnparsedFileEscapes | src/actionsplane/executor/service.py:57-65 | a campaign of two repositories whose review shows one edited file and whose pull request, with the merged map, edits two |
| Campaigns.DumpResolved | src/actionsplane/executor/campaigns.py:27-32 | the stored map loads back as itself |
| Campaigns.Campaign.RunDryRun | src/actionsplane/executor/campaigns.py:35-61 | every target failed or is previewed with exactly the edits of its repository; the stored map holds GitHub's answers for what the previewed repositories mention |
| Campaigns.Campaign.ApplyCampaign | src/actionsplane/executor/campaigns.py:64-118 | every target's status; the pull requests opened, in order, each with exactly the edits of its repository under the stored map |
| Campaigns.PreviewEqualsApply | src/actionsplane/executor/campaigns.py:64-118 | a previewed target whose files are unchanged and let nothing escape gets exactly the previewed edits, through the merged, stored and reloaded map |
| Campaigns.AtMostOnePullRequest | src/actionsplane/executor/campaigns.py:80-117 | however often a campaign is applied, a target gets at most one pull request |
| Drift.StepSignatures | src/actionsplane/drift/engine.py:39-47 | one signature per step that uses an action or runs a script, in order |
| Drift.NormPermsForgetsOrder | src/actionsplane/drift/engine.py:101-107 | two permission blocks compare equal iff they grant the same, in whatever order a mapping is written |
| Drift.WorstIsMaximum | src/actionsplane/drift/engine.py:55-58 | the accumulated level is the maximum over the recorded changes |
| Drift.WorstIsDistance | src/actionsplane/drift/engine.py:50-98 | the level of a report is that of the coarsest projection that tells the workflows apart |
| Drift.DistanceIff | src/actionsplane/drift/engine.py:50-98 | each level, said of the workflows' own jobs, steps, permission blocks, concurrency blocks and names |
| Drift.SaysIff | src/actionsplane/drift/engine.py:64-96 | each recorded change, said of the same |
| Drift.JobsAgreeIff | src/actionsplane/drift/engine.py:39-47 | two step lists have one signature iff their steps that use or run something agree one by one; refs aside, iff they agree before the first at sign |
| Drift.Diff | src/actionsplane/drift/engine.py:50-98 | the report records exactly the changes that hold of the two workflows; its severity says whether jobs and actions differ, or refs, grants and concurrency, or the name, or nothing |
| Drift.IdenticalIffSameNormalForm | src/actionsplane/drift/engine.py:50-98 | IDENTICAL iff the compared normal forms agree; the severity is symmetric |
| Drift.DriftIsUltrametric | src/actionsplane/drift/engine.py:50-98 | the severity of a and c is at most the worse of a, b and b, c |
| LineDiff.SplitIsExact | frontend/src/components/DriftDetail.tsx:10-11 | the lines joined again are the text, and no line holds a newline |
| LineDiff.SpellsIff | frontend/src/components/DriftDetail.tsx:10-11 | the lines of a text are the one non-empty list of newline-free lines that joins to it, a newline at the very end aside |
| LineDiff.LcsIsUpperBound | frontend/src/components/DriftDetail.tsx:15-17 | no common subsequence is longer than the table entry |
| LineDiff.ScriptIsExact | frontend/src/components/DriftDetail.tsx:18-28 | the script turns the first list into the second and keeps as many lines as the table says |
| LineDiff.KeptIsCommon | frontend/src/components/DriftDetail.tsx:18-28 | what any script keeps is a common subsequence, and fixes the script's length |
| LineDiff.ScriptIsOptimal | frontend/src/components/DriftDetail.tsx:9-29 | the script keeps a longest common subsequence and no correct script is shorter |
| LineDiff.ScriptDeletesFirst | frontend/src/components/DriftDetail.tsx:22-26 | no line is deleted right after one is added |
| LineDiff.FillTable | frontend/src/components/DriftDetail.tsx:14-17 | every entry is the LCS length of its two suffixes |
| LineDiff.WalkTable | frontend/src/components/DriftDetail.tsx:18-28 | the walk over the table pushes that script |
| LineDiff.LineDiff | frontend/src/components/DriftDetail.tsx:9-29 | both sides spell their text, a newline at the very end aside; no common subsequence of lines is longer than what is kept, no script between the texts is shorter; deletions come before additions |
| Layers.DequeuedIffGrounded | frontend/src/components/PipelinesTab.tsx:38-47 | a node is dequeued iff no cycle lies upstream of it |
| Layers.SettledIsExact | frontend/src/components/PipelinesTab.tsx:25-49 | the final state gives longest-path lengths to nodes without an upstream cycle and fixes the columns of all others |
| Layers.AcyclicLayout | frontend/src/components/PipelinesTab.tsx:24 | on an acyclic component every column is the length of the longest path ending there, and every edge goes right |
| Layers.CycleNodeColumn | frontend/src/components/PipelinesTab.tsx:48 | when a node on a cycle is in column 0 |
| Layers.CycleNodeCanMove | frontend/src/components/PipelinesTab.tsx:48 | a component whose cycle node is not in column 0 |
| Layers.CountEdges | frontend/src/components/PipelinesTab.tsx:27-33 | successor lists and in-degrees, with repeated edges counted and self-loops ignored |
| Layers.RaiseSuccessors | frontend/src/components/PipelinesTab.tsx:42-46 | one turn of the loop keeps columns, counts and queue right |
| Layers.ComputeLayers | frontend/src/components/PipelinesTab.tsx:25-49 | the exact layout; each node without an upstream cycle is dequeued once and no other node is |
| Pipelines.Explore | src/actionsplane/relations/analyze.py:236-244 | the stack loop collects exactly the nodes connected to its start, each once, and ends though the stack may hold duplicates |
| Pipelines.ConnectedComponents | src/actionsplane/relations/analyze.py:218-246 | the pipelines: sorted, distinct components covering exactly the nodes an edge touches, largest first |
| Pipelines.PipelinesAreDisjoint | src/actionsplane/relations/analyze.py:218-246 | no node is in two pipelines |
| Pipelines.SharePipelineIffConnected | src/actionsplane/relations/analyze.py:218-246 | two nodes share a pipeline iff an edge touches them and they are connected |
| Pipelines.GraphBuilder.Ensure | src/actionsplane/relations/analyze.py:139-157 | a node is added once and never overwritten |
| Pipelines.GraphBuilder.AddItems | src/actionsplane/relations/analyze.py:159-183 | the nodes are exactly the workflows, none of them external, and the name index is built |
| Pipelines.GraphBuilder.AddItemEdges | src/actionsplane/relations/analyze.py:185-212 | one workflow's trigger, call and emitted edges, in order; their ends are nodes |
| Pipelines.NamesAreItems | src/actionsplane/relations/analyze.py:182-183 | a name resolves to the last workflow of that repository that carries it |
| Pipelines.AllEdgesAreRight | src/actionsplane/relations/analyze.py:185-212 | a trigger links two workflows of one repository by name, a call links to the file it names, an emitted edge leaves the repository and is a guess |
| Pipelines.EveryEdgeIsDrawn | src/actionsplane/relations/analyze.py:185-212 | every upstream that some workflow of the repository carries, every call and every emit that leaves the repository has its edge |
| Pipelines.NamedIffCarried | src/actionsplane/relations/analyze.py:182-183 | a name is indexed iff some workflow of the repository carries it and it is not empty |
| Pipelines.IdIsInjective | src/actionsplane/relations/analyze.py:125-126 | for repositories without a colon two ids are equal iff repository and path are |
| Pipelines.BuildPipelineGraph | src/actionsplane/relations/analyze.py:129-215 | where no repository holds a colon: one node per workflow, none shared by two files, an edge for exactly each trigger, call and leaving emit, between the nodes of the repositories and paths it says; and its pipelines |
| Percentile.PercentileExists | src/actionsplane/metrics/compute.py:28-33 | no value for no data, an error exactly for p outside [0, 100] on some data |
| Percentile.PercentileInterpolates | src/actionsplane/metrics/compute.py:34-43 | exactly the piecewise linear function through the order statistics |
| Percentile.PercentileIsBetween | src/actionsplane/metrics/compute.py:28-43 | the result lies between the minimum and the maximum |
| Percentile.PercentileForgetsOrder | src/actionsplane/metrics/compute.py:28-43 | the order of the data does not matter |
| Percentile.PercentileGrowsWithP | src/actionsplane/metrics/compute.py:28-43 | monotone in p, across segments |
| Percentile.PercentileGrowsWithData | src/actionsplane/metrics/compute.py:28-43 | monotone in the data, pointwise |
| Sorting.SortForgetsOrder | src/actionsplane/drift/engine.py:106 | sorting by an antisymmetric order depends only on the multiset of elements |

## Left out

- Campaigns.PreviewEqualsApply: is about the workflow tree and the list of changes; the unified diff text, comments and YAML formatting are functions of those in a library that is not part of this model.
- Operations.PinnedIsSafe: does not model the end-of-line comment that records the tag.
- Pipelines.GraphBuilder.AddEdgeTo: does not state the external mark of nodes that are not in the list; it depends on which edge names them first.
- Pipelines.BuildPipelineGraph: takes relation descriptors as given, so the dot that `lstrip("./")` eats from `.github` (relations/analyze.py:107) is already in them; node names, badges and run status are not modelled.
- Percentile.PercentileInterpolates: is over the reals; floating-point rounding is not modelled.
- Findings.KeyNamesRepo: takes SHA-256 to be collision-free, so the key string stands for its hash.
- SourceScope.ScopedIffClean: says nothing of tables or documents with a colon in a path, whose fingerprints collide in any case, nor of rows of other tools whose names hold a colon; models PostgreSQL's LIKE, with a backslash as escape; SQLite's has no escape and ignores case.
- SarifIngest.IngestSarif: lower-cases tool names on the ASCII letters; Python's `lower()` is Unicode.
- SarifIngest.ParseSarif: takes the score as a number or as absent; NaN, and a name or text that is JSON null, are not modelled.
- ConditionalGet.CacheIsTransparent: assumes strong ETags; URL building, cache keys, response headers and the length of a Retry-After sleep are not modelled.
- Drift.NormPermsForgetsOrder: takes the keys and values of a mapping as the strings they are converted to.
- NativeAudit.AuditFiles: says which types and loci are listed at which paths, not the order, repetitions, severities and messages of the list; takes triggers as the names they list.
- NativeAudit.CanReportIff: takes any text as a job's id, a step's name or a reference; what YAML makes of a file is not part of this model.
- Pins.ClassifiedName: `\d` and lower-casing are taken on ASCII; Python's are Unicode.
- VerifiedClosed.CampaignVerification: the grouped SQL query is a parameter with its meaning as precondition.
- Leases.ExclusionIffTtlCovers: that a worker is killed at its job timeout, and that a running heartbeat keeps its cadence within a delay, are premises about the scheduler.
- Delivery.OneJobPerRetention: that the queue refuses the ids of unfinished jobs and of results it keeps (for the worker's `keep_result`, sync/worker.py:536) is a premise about the queue library, whose expiry of jobs that are never run is not modelled; nor is request validation before the lookup.
- BoundedGather.NeverMoreThanLimit: starts from a limit of at least 1; a smaller one is rejected before anything runs.
- HTTP, Redis, SMTP, telemetry, the CLI, the frontend's rendering and database migrations: I/O and presentation.
- The other operations (runs-on swap, permissions, concurrency, template sync), the scorecard, cost advice, policy simulation, advisories, role checks and the GitLab provider: single branches or plain aggregations.
- Malformed YAML nodes (a step that is not a mapping, a `uses` that is not a string): the tree is well-typed. A null `steps:` or `jobs:` parses for the analysis and makes the editor raise (executor/operations.py:78, executor/operations.py:105-107); here it is an empty list.
- `upsert_repo` and `upsert_workflow`: unconditional last write wins. The workflow id and raw payload of a job row travel with its other columns.
- Notifications, the settings gates before an apply, the campaign's own status field, and a crash of a dry run before it commits.
- The prune sweeps' batches: only their effect on recorded deliveries appears, as a step.
