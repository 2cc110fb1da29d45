# Argus crawl pipeline: a verified model

Argus is a web crawler made of workers that talk over five Kafka topics: a scheduler, a crawler that feeds its own
topic, a parser, a cleaner, a retry worker and a DLQ replayer. They share an idempotency ledger, one row per job and
URL, a seen set per job, a global URL claim with a time to live, a token bucket per domain and a content-hash cache.

The model keeps each handler at the granularity of its awaits. A handler in progress is a value (`Handlers.Proc`)
whose next atomic effect `Handlers.Advance` performs on the shared store (`Store.Store`). `Machine.Apply` interleaves
any number of handlers with submissions, deliveries of any message ever published, crashes and key expiry; fetches,
extractions, robots answers and transaction outcomes are inputs that may be anything. The same handlers are written
imperatively in `Workers` and `Scheduler` over a class with mutable fields (`Platform.Platform`), each proved to leave
exactly the store that its micro steps reach when nothing comes between, and what that store is: rows, messages, keys and
counters are told field by field, without reference to the steps.

| file | contents |
|---|---|
| `Events`, `Links`, `Store`, `Handlers`, `Machine` | events and their JSON form, link filter and deduplication, the store and its effects, handlers as micro steps, interleaved runs |
| `Platform`, `Workers`, `Scheduler` | the imperative form of store, workers and job submission |
| `Unrolling`, `Discoveries`, `CrawlOutcomes`, `StageOutcomes` | what each handler leaves behind when it runs undisturbed, field by field |
| `Requests`, `PageContents`, `Replays` | what stands behind every job, every page's content and every replay in a run |
| `Lineage`, `LineageSteps`, `Guarantees`, `Provenance` | the inductive invariant, its preservation, what it means for every run, where pages and discoveries come from |
| `Termination`, `Draining` | every run is finite, and where it ends everything is settled |
| `PageFlow`, `NoSilentLoss`, `Orphans`, `SeenKeys` | when rows and URLs are taken care of, and exactly how they are lost |
| `Retry`, `Chains` | backoff, and the chain of messages behind every message |
| `Submissions`, `Jobs`, `Reopening` | what a submission counts, progress and completion, when a job's rows stay terminal |
| `Scenarios` | concrete runs from the empty pipeline that do less than the documentation promises |
| `Delivery` | offsets, commits, crashes and rebalances of one ledgered stage |
| `TokenBucket`, `Dedup`, `CleanerStore`, `ContentHash` | the stores that must agree with something simple |
| `Text`, `Extraction`, `Percent`, `Query`, `UrlNormalize` | text cleaning, JSON-LD and link loops, canonical URLs |

`dafny verify dfyconfig.toml` checks the whole project.

Event ids come from a counter, and sets of URL hashes are sets of normalized URLs (SHA-256 taken as injective). All
workers share one `max_attempts` of at least 1 (packages/argus-core/src/argus_core/factories.py:28-32).

## Where the code differs from its documentation

The model follows the code.

- README.md:90 and docs/DESIGN_DECISIONS.md:22 promise exactly-once effects, and docs/ARCHITECTURE.md:43 a replay
  after a crash in mid-fetch. The claim commits before the body runs, so effects are at most once and the replayed
  message is dropped: a claimed event is completed exactly if no crash falls between its claim and the return of its
  handler (`Delivery.ExactlyOnceUnlessCutOff`, `Delivery.CrashSkipsEvent`).
- README.md:181 says the DLQ replayer can recover terminal failures, docs/ARCHITECTURE.md:46 that a cleaner failure is
  retried without a new crawl. Both republish the old event id, which the ledger drops
  (`Guarantees.ReplaysAreDropped`, `Guarantees.CleanerRetriesAreDropped`).
- `commit_message` calls itself at-least-once; it commits the positions of every partition the consumer holds, and
  offsets of events whose body never finished among them (`Delivery.CommittedWasHandled`).
- A row can be lost although nothing crashes: the crawler marks it `fetched` after the page was parsed and cleaned
  (`Scenarios.LateMarkLosesRow`). A queued row may be stranded for ever (`Orphans.AbandonedRowIsStranded`). A row is
  lost exactly by such a mark, or when the last handler that was to take care of it is cut off
  (`NoSilentLoss.NoRowIsLostIff`).
- A URL marked as seen gets no row, for good, if its handler is cut off before it is queued
  (`SeenKeys.DroppedForGood`).
- A completed job may get rows that are not terminal (`Scenarios.CompletedJobReopens`); when it cannot is
  `Reopening.RowsStayTerminalIff`.
- `urls_queued` may be less than the number of distinct seeds: crawlers already run while seeds are published, and may
  mark a seed as seen first (`Scenarios.StolenSeedIsNotCounted`, `Submissions.CountsDistinctSeedsIff`).
- A content-hash lookup may return an older hash than the table's, even with one handler at a time, since the
  cleaner catches a cache write that raises after its commit (`ContentHash.RaisedWriteIsStale`,
  `ContentHash.LookupsTrustedIff`).
- `normalize_url` is not idempotent (`UrlNormalize.NormalizeIdempotent`, `UrlNormalize.NotIdempotent`).

## Model

| member | source | states |
|---|---|---|
| `Termination.RunsAreFinite` | services/crawler/src/crawler/main.py:127-325 | From any reachable state, a run without new jobs and without redelivered failures or dead letters changes the state at most `Measure` times: the self-feeding crawl ends, whatever the interleaving, crashes and key expiry |
| `Termination.MeasureFalls` | services/retry/src/retry/main.py:70-105 | Each such state-changing step strictly lowers the weighted sum over everything in flight; the weights recurse over link levels and attempts left, with a fan-out of 50 |
| `Termination.BeginWeighsLess` | services/parser/src/parser/main.py:90-143 | The handler a delivery starts weighs less than the message did, on every topic |
| `Termination.AdvanceFalls` | services/crawler/src/crawler/main.py:301-325 | One micro step of any handler, with what it publishes, weighs less than the handler did |
| `NoSilentLoss.NoRowIsLost` | services/crawler/src/crawler/main.py:98-246 | With any number of handlers interleaved, where no handler crashes while it owes a row anything or is about to mark it, the publication of a queued link succeeds, and a crawler marks a settled row only if the parser has not claimed the page: whenever no handler owes a row anything, it is terminal, or has a live in-flight message, or its page is in the DLQ history |
| `NoSilentLoss.NoRowIsLostIff` | services/crawler/src/crawler/main.py:98-325 | Over every run, with crashes and redeliveries anywhere: at every point every row is terminal, or owed by a handler, or has a live message, or its page is in the DLQ history, if and only if no step cuts off the last handler that was to take care of an unsettled row, and no crawler marks a settled row that nothing is left in flight for |
| `NoSilentLoss.DrainedRowsAreSettled` | services/cleaner/src/cleaner/main.py:116-165 | Under the same guards a drained pipeline leaves no row `queued` or `claimed`: each is terminal, or `fetched` with its page in the DLQ history |
| `Draining.RestIffDrained` | services/crawler/src/crawler/main.py:98-125 | In every state that keeps the invariant: no step of a handler and no delivery but of dead letters and handled failures changes anything, if and only if no handler is in progress, every claimable event is claimed and every failure was handled |
| `Draining.WorkDrains` | services/crawler/src/crawler/main.py:127-325 | From any reachable state such work leads to a drained state, without crash or new job; it never takes more than `Measure` steps, and whenever it cannot go on the state is drained |
| `Draining.RestingRowsAreSettled` | services/cleaner/src/cleaner/main.py:116-165 | So where a guarded run comes to rest, every row is terminal, or `fetched` with its page in the DLQ history |
| `Scenarios.LateMarkLosesRow` | services/crawler/src/crawler/main.py:200-224 | A crash-free run from the empty pipeline, for any one-page site: parser and cleaner finish between the crawler's publication and its mark; at the end every handler is done, the job is completed and the row is `fetched` with no live message and no dead letter about it |
| `Orphans.AbandonedRowIsStranded` | services/crawler/src/crawler/main.py:304-325 | The other side: a crash, or a publication that raises, between queueing a row and publishing it leaves the row `queued` for ever, with no message about it in any continuation |
| `Orphans.OrphanForever` | packages/argus-core/src/argus_core/redis_client.py:34-36 | No later handler takes such a row up, because the job's seen set still holds it |
| `SeenKeys.SeenIsBackedIff` | services/crawler/src/crawler/main.py:304-310 | In every run a URL marked as seen has its row, or a handler about to insert it, if and only if no such handler crashed or raised before the insertion |
| `SeenKeys.DroppedForGood` | services/crawler/src/crawler/main.py:304-310 | A URL whose handler is cut off between its seen mark and its row has neither a row nor a message on any topic in any continuation |
| `Guarantees.LineagePreserved` | services/crawler/src/crawler/main.py:295-319 | In every run each `UrlDiscovered` carries its own job's depth limit and domains and its row's depth; in jobs made of seeds, below the seeds it is within the limit and in an allowed domain |
| `Provenance.DiscoveriesWithinLimits` | services/crawler/src/crawler/main.py:295-319 | In every run each `UrlDiscovered`, retried and replayed ones included, goes back to the first discovery of its row, with the same URL, depth, depth limit and domains; if a crawler found that one, in a job of any kind, incremental ones included, it is within the depth limit and its host passes the domain filter |
| `Guarantees.DepthPreserved` | packages/argus-core/src/argus_core/infrastructure/persistence/repositories.py:54-85 | On all five topics a message's row exists and has the message's depth, so the depth-0 insert of `transition` is never reached for an event's row |
| `Provenance.PageTracesBack` | services/crawler/src/crawler/main.py:195-214 | In every run, behind each parsed page, first published, retried or replayed, stand on the log the fetch with its event id, URL, object key, checksum and depth, and before that the discovery that was fetched for |
| `Guarantees.AttemptsBounded` | packages/argus-core/src/argus_core/retry.py:27-31 | Attempts run from 1 to the maximum; every failure event has one left, every DLQ payload none |
| `Guarantees.RetryNeverDeadLetters` | services/retry/src/retry/main.py:75-79 | The retry worker's dead-letter branch is never taken, and no dead `UrlFailed`, whose parameters a replay would trust, is ever published |
| `Guarantees.ClaimsInOrder` | packages/argus-core/src/argus_core/infrastructure/persistence/repositories.py:14-29 | A cleaner claim implies a parser claim, which implies a crawler claim |
| `Guarantees.AtMostOnce` | services/crawler/src/crawler/main.py:106-113 | After a delivery, no delivery of a message with the same event id at the same stage changes anything or starts a handler, in any continuation |
| `StageOutcomes.UnclaimedTopics` | services/retry/src/retry/main.py:70-82 | A failure or a dead letter starts its handler on every delivery: their topics have no claim |
| `Guarantees.RunLedgerGrows` | packages/argus-core/src/argus_core/infrastructure/persistence/repositories.py:14-29 | The ledger only grows |
| `Guarantees.ReplaysAreDropped` | services/dlq_replay/src/dlq_replay/main.py:72-78 | Every message the replayer publishes is dropped by its stage: replays keep the event id, which the ledger already holds |
| `Guarantees.CleanerRetriesAreDropped` | services/retry/src/retry/main.py:84-87 | A retried cleaner failure is dropped by the cleaner for the same reason |
| `Guarantees.DiscoveredOnce` | services/crawler/src/crawler/main.py:301-325 | Over all runs and concurrent handlers, each (job, normalized URL) is first-published at most once, and its row was in the table at some point of the run at which that message was not yet on the log |
| `Guarantees.RowsComeFromQueueing` | packages/argus-core/src/argus_core/infrastructure/persistence/repositories.py:33-52 | A row only ever appears at the queueing step of a handler that has just marked it as seen; `transition` never inserts one |
| `LineageSteps.ApplyInv` | services/crawler/src/crawler/main.py:98-325 | The invariant behind these results is kept by every submission, delivery, micro step, crash and expiry |
| `LineageSteps.AdvanceGood` | services/crawler/src/crawler/main.py:127-246 | One micro step of any handler keeps it, publishes at most one well-formed message, and inserts no row but its own pending one |
| `LineageSteps.DeliverGood` | services/crawler/src/crawler/main.py:98-123 | So does the claim transaction of any delivery |
| `Events.JsonRoundTrip` | packages/argus-events/src/argus_events/schemas.py:10-68 | Each of the four events comes back from its JSON form unchanged, with all fields of its schema and those of a page nested in a failure |
| `Events.MissingKeys` | packages/argus-events/src/argus_events/schemas.py:10-68 | What a missing key of each event stands for |
| `Events.RequiredKeys` | packages/argus-events/src/argus_events/schemas.py:10-68 | An event is refused exactly if one of its required keys is missing or null |
| `Events.EnvelopeIsKept` | services/dlq_replay/src/dlq_replay/main.py:71-82 | The fields that no worker decides anything on do not change how a dead letter is classified, and a replay keeps trace, version and time |
| `Events.ReplayShapes` | services/dlq_replay/src/dlq_replay/main.py:71-82 | How the shape test classifies each kind of dead letter: only a page comes back as a page; an `HtmlFetched` comes back as a forced `UrlDiscovered` with the same id |
| `Platform.Platform.TryClaim` | packages/argus-core/src/argus_core/infrastructure/persistence/repositories.py:14-29 | The claim is inserted, and reported as new exactly when it was absent |
| `Platform.Platform.QueueUrl` | packages/argus-core/src/argus_core/infrastructure/persistence/repositories.py:33-52 | An absent row is inserted as queued at the given depth; a present one stays as it is |
| `Platform.Platform.Transition` | packages/argus-core/src/argus_core/infrastructure/persistence/repositories.py:54-85 | The row has the new status, and the error and checkpoint that came with it, if any; its depth stays, a missing row is inserted at depth 0, all other rows and stores are unchanged |
| `Platform.Platform.MarkSeen` | packages/argus-core/src/argus_core/redis_client.py:34-36 | The URL joins the job's seen set; the result says whether it is new |
| `Platform.Platform.RefreshJobStatus` | packages/argus-core/src/argus_core/jobs.py:42-64 | Comparing the two sums of counts completes the job exactly when it is running, has rows, and each is parsed, skipped or failed; nothing else changes |
| `Store.CountsPartition` | packages/argus-core/src/argus_core/infrastructure/persistence/repositories.py:87-95 | The counts per status add up to the number of the job's rows |
| `Store.CountsDecide` | packages/argus-core/src/argus_core/jobs.py:51-63 | total = 0 means no rows; terminal >= total means all rows are terminal |
| `Workers.CrawlerWorker.HandleMessage` | services/crawler/src/crawler/main.py:98-125 | The imperative handler leaves the store that the micro-step machine reaches when it runs undisturbed: a duplicate changes nothing; otherwise the claim is in the ledger, the row is `claimed` with the crawler as checkpoint, and then comes what `Handle` does |
| `Workers.CrawlerWorker.Handle` | services/crawler/src/crawler/main.py:127-246 | The same from the dedup gate on, and field by field: a URL that is held and not forced is skipped; a forced crawl leaves its URL free, any other holds it; a page that robots forbid is skipped with that error; then comes what the fetch leads to |
| `Workers.CrawlerWorker.Crawl` | services/crawler/src/crawler/main.py:168-230 | The try block raises, or returns, exactly where the machine goes on to fail, or ends; it raises the fetch's error, `HTTP n` from status 400 on, or what an effect raised; when it returns, a page whose checksum is the stored one and not empty is marked `skipped` and nothing is published, and any other is published, marked `fetched` and its links followed |
| `Workers.CrawlerWorker.FollowLinks` | services/crawler/src/crawler/main.py:301-325 | The loop over links equals the machine's link steps, including where it raises; when it does not, every link is seen, and each URL among them that was not has its row and its message |
| `Workers.CrawlerWorker.EnqueueDiscoveredLinks` | services/crawler/src/crawler/main.py:295-325 | Nothing is followed at the depth limit; below it, the first 50 of the links in an allowed domain are, in order |
| `CrawlOutcomes.CrawlRuns` | services/crawler/src/crawler/main.py:127-246 | For any event, input and store: the row's status, error and checkpoint, the fetched page, each discovery and failure with all its fields, the dedup key and the seen set; nothing else changes. If an effect raises, exactly the effects before it are there, and then the row is `failed` with that error and the failure published |
| `CrawlOutcomes.FetchRuns` | services/crawler/src/crawler/main.py:168-230 | The same of what comes of a fetch: failed, unchanged, or published with its links, or cut short |
| `CrawlOutcomes.FirstFiftyFollowed` | services/crawler/src/crawler/main.py:295-325 | After a crawl that fetches a new or changed page below the depth limit and is not cut short, each of the first 50 allowed links is seen; if it was not, its URL has a row, new ones `queued` one level down, and exactly one message |
| `Workers.CrawlerWorker.PublishFailure` | services/crawler/src/crawler/main.py:248-272 | A retryable failure is published with a new id, this event's lineage, its force flag and the crawler as stage; an exhausted one goes to the DLQ as it is |
| `Workers.ParserWorker.HandleMessage` | services/parser/src/parser/main.py:70-88 | Claim, then extraction, or the drop of a duplicate |
| `Workers.ParserWorker.Handle` | services/parser/src/parser/main.py:90-143 | The page published has the fetch's id and lineage and the content that extraction returned; a failure has a new id and the parser as stage while attempts are left, else the fetch goes to the DLQ; nothing else changes |
| `StageOutcomes.ParseRuns` | services/parser/src/parser/main.py:90-143 | The same for the machine's micro steps, for any event, input and store |
| `PageContents.ContentIsExtracted` | services/parser/src/parser/main.py:90-115 | In every run, for each page on the log, in a cleaner's failure or in a dead letter, first published, retried or replayed: a delivery of the fetch it comes from had an extraction that returned exactly its content |
| `Workers.CleanerWorker.HandleMessage` | services/cleaner/src/cleaner/main.py:96-114 | Claim, then cleaning, or the drop of a duplicate |
| `Workers.CleanerWorker.Handle` | services/cleaner/src/cleaner/main.py:116-165 | The transaction rolls back, commits, or commits before the cache write raises: on commit the row is `parsed`, and a running job whose rows are all done is completed; after a raise the row is `failed` with the error, and the failure, with the page and the default depth limit and domains, or the dead letter is published |
| `StageOutcomes.CleanRuns` | services/cleaner/src/cleaner/main.py:116-165 | The same for the machine's micro steps, for any event, input and store |
| `Workers.RetryWorker.Handle` | services/retry/src/retry/main.py:70-99 | Below the maximum a cleaner failure that holds a page publishes that page with its old id, any other a new `UrlDiscovered` with the failure's lineage and force flag, one attempt up; at the maximum the failure goes to the DLQ |
| `StageOutcomes.RetryRuns` | services/retry/src/retry/main.py:70-99 | The same for the machine's micro steps, for any failure and store |
| `Workers.DlqReplayConsumer.Handle` | services/dlq_replay/src/dlq_replay/main.py:56-82 | The counter of the event in the letter goes up by one; the letter is published again, as `Events.ReplayShapes` says, if it had not reached the cap before |
| `StageOutcomes.ReplayRuns` | services/dlq_replay/src/dlq_replay/main.py:56-82 | The same for the machine's micro steps, for any letter and store |
| `Replays.ReplayedUpToCap` | services/dlq_replay/src/dlq_replay/main.py:62-78 | In every run in which the counter of an event does not expire, n counted deliveries of its dead letters lead to at most min(n, cap) publications, and to exactly that many if and only if no handler crashed between count and publication and none is about to publish |
| `Scheduler.JobScheduler.SubmitJob` | services/scheduler/src/scheduler/main.py:66-129 | The submission leaves the store the machine reaches; it is refused exactly if it is a re-crawl without any domain; otherwise there is one new job, running, with the request's depth limit and kind and its domains, or else the seeds'; each seed is seen, and each new URL among them has its row and one message with the seed's URL, the job's terms and, in a re-crawl, the seed's depth and the force flag; `urls_queued` and the returned count are the number of these |
| `Scheduler.JobScheduler.QueueAll` | services/scheduler/src/scheduler/main.py:100-117 | The loop over seeds is the fold `QueueSeeds`, and does that for any order and any seeds |
| `Scheduler.SubmitRuns` | services/scheduler/src/scheduler/main.py:66-129 | The same for the machine's micro steps, for any request and store |
| `Requests.JobsAreRequested` | services/scheduler/src/scheduler/main.py:75-129 | In every run, whatever is interleaved, behind every job stands the submission that made it: the job has that request's terms, and every seed message of the job is one of its seeds, with URL, depth, force flag and terms |
| `Discoveries.OfferedOnce` | services/scheduler/src/scheduler/main.py:100-117 | Of the URLs that a batch offers a job, seeds or links, each that it had not seen has a row afterwards and exactly one message |
| `Scheduler.LoopQueues` | services/scheduler/src/scheduler/main.py:224-246 | The loop creates one row and publishes one message for exactly the distinct URLs the job had not seen, and its count is their number |
| `Scheduler.EverySubmissionCounts` | services/scheduler/src/scheduler/main.py:93-129 | In every run, for a submission that then runs undisturbed: distinct normalized seeds, rows created, messages published and `urls_queued` are the same number; what interleaving changes is `Submissions.CountsDistinctSeedsIff` |
| `Submissions.QueuedIsPublished` | services/scheduler/src/scheduler/main.py:100-129 | In every run, whatever is interleaved: a submission in progress has counted exactly its job's seed messages on the log, and `urls_queued` is 0 or that number |
| `Submissions.CountsDistinctSeedsIff` | services/scheduler/src/scheduler/main.py:100-117 | For every run in which a submission gets through its seeds while anything else happens: its count is at most the number of distinct normalized seeds, and equals it if and only if no other handler marked a seed as seen before the loop reached it |
| `Scenarios.StolenSeedIsNotCounted` | services/crawler/src/crawler/main.py:301-306 | A crash-free run from the empty pipeline, for any two seeds of which the first links to the second: the crawler marks the second as seen first, and `urls_queued` is 1 for 2 distinct seeds |
| `Scheduler.SeenHasJob` | packages/argus-core/src/argus_core/redis_client.py:34-36 | Only URLs of existing jobs are ever marked as seen |
| `Links.FilterLinksByDomain` | packages/argus-core/src/argus_core/parser.py:17-23 | The loop computes the filter |
| `Links.FilterKeepsAllowed` | packages/argus-core/src/argus_core/parser.py:17-23 | The filter keeps exactly the links whose host is an allowed domain or a subdomain of one, with their multiplicity |
| `Links.FilterConcat` | packages/argus-core/src/argus_core/parser.py:17-23 | The filter preserves order: it commutes with splitting the list |
| `Links.DomainAllowedIff` | packages/argus-core/src/argus_core/parser.py:21-21 | A host passes exactly if it is one of the domains, or ends in one behind a dot |
| `Links.HostOfUrl` | packages/argus-core/src/argus_core/parser.py:20-20 | The host of a URL with an authority reaches up to the port, path, query or fragment |
| `Links.HasSchemeIff` | packages/argus-core/src/argus_core/parser.py:20-20 | A URL has a scheme exactly if a letter with letters, digits and `+-.` behind it stands before its first `:` |
| `Links.DedupeLinks` | services/cleaner/src/cleaner/main.py:50-57 | The loop computes the first-occurrence deduplication |
| `Links.DedupeOrder` | services/cleaner/src/cleaner/main.py:50-57 | It keeps the order of first occurrences |
| `Links.DedupeNoRepeats` | services/cleaner/src/cleaner/main.py:50-57 | It leaves no element twice |
| `Links.DedupeMember` | services/cleaner/src/cleaner/main.py:50-57 | It keeps exactly the elements of the input |
| `Retry.PublishedFollows` | services/retry/src/retry/main.py:84-99 | Whatever a handler publishes about its own row follows its message: attempts change only at the retry worker, by one |
| `Retry.DelaysDouble` | packages/argus-core/src/argus_core/retry.py:27-31 | A failure is retried exactly below the maximum; the first delay is the base and each attempt doubles it |
| `Retry.BackoffBounded` | packages/argus-core/src/argus_core/retry.py:27-31 | On any chain of such messages the worker sleeps at most base * (2^(max_attempts - 1) - 1) in all |
| `Chains.EveryMessageIsTrailed` | services/retry/src/retry/main.py:70-99 | In every run each message on any topic ends a chain of log messages, in log order, from the first discovery of its row, and on every such chain to it the worker sleeps at most that long |
| `Delivery.DoOk` | packages/argus-events/src/argus_events/kafka_client.py:86-103 | Polls, claims, returns, commits of all positions, crashes and rebalances keep the protocol invariant |
| `Delivery.CommittedWasHandled` | packages/argus-events/src/argus_events/kafka_client.py:86-103 | Over any interleaving, for each committed offset a handler returned, the message is in the ledger, and its body ran to the end, or was cut off by a crash, or is running at another worker |
| `Delivery.BodyAtMostOnce` | packages/argus-core/src/argus_core/infrastructure/persistence/repositories.py:14-29 | Each event enters the handler body at most once, and the ledger is exactly the set of events that did |
| `Delivery.ExactlyOnceUnlessCutOff` | packages/argus-events/src/argus_events/kafka_client.py:91-103 | In every history, a claimed event whose body is not running was completed if and only if no worker crashed inside that event's body |
| `Delivery.LostForever` | services/crawler/src/crawler/main.py:106-123 | An event whose body was cut off is never completed, whatever happens next |
| `Delivery.CrashSkipsEvent` | packages/argus-events/src/argus_events/kafka_client.py:86-88 | Where "at-least-once" fails: whenever a worker crashes in a body, wherever the committed offset is, the event is completed in no continuation, and a recovery of the partition by that worker commits it all the same |
| `Delivery.Consumer.Consume` | packages/argus-events/src/argus_events/kafka_client.py:91-103 | Handling and committing message by message drains the partition and runs the body for exactly the first unclaimed occurrences, in order |
| `Delivery.LetInIsDedupe` | packages/argus-core/src/argus_core/infrastructure/persistence/repositories.py:14-29 | From an empty ledger the bodies that run are the topic without its duplicates |
| `TokenBucket.RateLimiter.Script` | packages/argus-core/src/argus_core/rate_limit.py:22-49 | A request is granted if and only if, for every earlier grant, granting keeps the grants since then within burst + rate * elapsed; the wait of a denial is `WaitFrom`; only the domain's own key changes, and only on a grant: to the level less one, the time, and a lifetime of ceil(burst / rate) + 60 seconds |
| `TokenBucket.GrantIsAdmissible` | packages/argus-core/src/argus_core/rate_limit.py:33-43 | The same for the script as a function of the stored fields, expired or not |
| `TokenBucket.CreditLevelIsMinimum` | packages/argus-core/src/argus_core/rate_limit.py:33-34 | The refilled level is the minimum over all windows that start at a grant: the min-plus form |
| `TokenBucket.WindowBound` | packages/argus-core/src/argus_core/rate_limit.py:22-49 | Any stretch of time of length T holds at most burst + rate * T grants |
| `TokenBucket.WaitFromIsExact` | packages/argus-core/src/argus_core/rate_limit.py:36-39 | With no grant in between, the bucket serves from now + wait on, and not before |
| `TokenBucket.ExpiredIsFull` | packages/argus-core/src/argus_core/rate_limit.py:43-43 | When the key expires, the bucket has refilled to burst |
| `TokenBucket.LazyRefinesEager` | packages/argus-core/src/argus_core/rate_limit.py:28-48 | For every request sequence the lazy, expiring bucket decides as an eager one that stores on every request and never expires |
| `TokenBucket.RateLimiter.Acquire` | packages/argus-core/src/argus_core/rate_limit.py:69-78 | A lone caller is granted after at most ceil(w / 0.01) + 1 calls, whatever part of each wait survives, and after at most 2 when the first reply carries the full wait; not before its wait w is over, and at most 0.01 s and the last overrun later |
| `Dedup.UrlDedupStore.TryClaim` | packages/argus-core/src/argus_core/redis_client.py:30-32 | A claim succeeds exactly when no claim of the URL stands: none is both the last mark of the URL and younger than the ttl |
| `Dedup.UrlDedupStore.Release` | packages/argus-core/src/argus_core/redis_client.py:38-40 | A release frees the URL |
| `Dedup.ClaimsBounded` | packages/argus-core/src/argus_core/redis_client.py:30-40 | In any window of length L, k claims and r releases of one URL satisfy k <= 1 + r + floor(L / ttl) |
| `Dedup.UrlDedupStore.ClaimsInWindow` | packages/argus-core/src/argus_core/redis_client.py:30-40 | The same of the store's own history, whatever calls were made |
| `CleanerStore.CleanerDatabase.Clean` | services/cleaner/src/cleaner/main.py:120-131 | One event's transaction: tables that stand for a map stand for the map with the event in it; one row of each table is the event's, field by field, the others stay |
| `CleanerStore.CleanerDatabase.UpsertUrl` | services/cleaner/src/cleaner/main.py:168-192 | The row is found or inserted and its id returned; hash and time are the event's; a known URL keeps job, canonical form, domain and depth, a new one has the event's |
| `CleanerStore.CleanerDatabase.UpsertArtifact` | services/cleaner/src/cleaner/main.py:194-209 | The artifact of the id is updated, or inserted: it has the event's object key and checksum |
| `CleanerStore.CleanerDatabase.UpsertPage` | services/cleaner/src/cleaner/main.py:211-238 | The page of the id is updated, or inserted: title, description and snippet are the event's cleaned and cut at 1024, 10000 and 500, the links its links without repeats, language and metadata as they came |
| `CleanerStore.TablesRefineMap` | services/cleaner/src/cleaner/main.py:168-238 | After any sequence of upserts there is exactly one URL, artifact and page row per cleaned URL, holding that URL's entry of the map |
| `CleanerStore.FirstAndLast` | services/cleaner/src/cleaner/main.py:173-192 | The entry has job, canonical form and depth of the first event for its URL, and hash, object key, checksum and page fields of the last |
| `CleanerStore.RowsOfUrl` | services/cleaner/src/cleaner/main.py:168-238 | After any sequence of transactions each cleaned URL has one URL row, one artifact and one page: job, canonical form, domain and depth of its first event, crawl time, hash, object key, checksum and page fields of its last, each field by name |
| `CleanerStore.CleanAgain` | services/cleaner/src/cleaner/main.py:168-238 | Applying an event again changes nothing but the crawl time |
| `CleanerStore.CleanCommutes` | services/cleaner/src/cleaner/main.py:168-238 | Events about different URLs commute |
| `Text.CleanTextShape` | services/cleaner/src/cleaner/main.py:43-47 | No text stays none, and whitespace cleans to nothing; any other text to a non-empty text as long as its words one space apart, or as the limit, with no leading whitespace and no two adjacent whitespace characters, that starts those words, and is all of them unless cut |
| `Text.CleanTextAgain` | services/cleaner/src/cleaner/main.py:43-47 | A second application removes at most one trailing space |
| `Text.CleanTextSettles` | services/cleaner/src/cleaner/main.py:43-47 | A third application changes nothing |
| `Text.CleanTextIdempotent` | services/cleaner/src/cleaner/main.py:43-47 | One application is final exactly when the cut did not fall just behind a space |
| `Text.WordsOfJoin` | services/cleaner/src/cleaner/main.py:46-46 | Splitting undoes joining |
| `Text.WordsRead` | services/cleaner/src/cleaner/main.py:46-46 | Which words any text has: whitespace in front is passed over, a word ends at the next |
| `ContentHash.ContentHashStore.GetHash` | packages/argus-core/src/argus_core/content_hash.py:29-42 | A lookup returns the cached hash, or else the table's, which it caches; with no handler in between, that is the table's hash if and only if the cache does not contradict the table for that URL; it leaves that as it was for every URL |
| `ContentHash.ContentHashStore.Cleaned` | services/cleaner/src/cleaner/main.py:120-133 | The commit stores the checksum; afterwards the cache is coherent if and only if the cache write did not raise, or the cache held nothing for the URL but that checksum; other URLs are untouched |
| `ContentHash.MovesAreMethods` | packages/argus-core/src/argus_core/content_hash.py:29-46 | Undisturbed, the single reads and writes of the interleaved model do what these methods do |
| `ContentHash.LookupsReturnCommitted` | packages/argus-core/src/argus_core/content_hash.py:29-46 | With single reads and writes interleaved, handlers dying and keys expiring, every stored, cached or returned hash was committed before for that URL, so "unchanged" is only reported for a committed checksum |
| `ContentHash.LookupsTrustedIff` | packages/argus-core/src/argus_core/content_hash.py:29-46 | Until the next commit for a URL, all its lookups, in every interleaving, return the table's hash if and only if neither a non-empty cache value nor a non-empty hash held by a handler about to write the cache differs from it |
| `ContentHash.LateFillIsStale` | packages/argus-core/src/argus_core/content_hash.py:35-42 | A run from empty stores in which a lookup that has read the table fills the cache after a cleaner has committed and cached a new hash: the next lookup returns the older one |
| `ContentHash.RaisedWriteIsStale` | services/cleaner/src/cleaner/main.py:120-133 | A run from empty stores with one handler at a time: the cache write after the second commit raises, and the next lookup returns the first hash |
| `Jobs.ShowsHundred` | packages/argus-core/src/argus_core/jobs.py:24-37 | Progress stays in [0, 100] and shows 100.0 exactly when the job has rows of which at most one in 2000 is not terminal |
| `Jobs.ShowsNearestTenth` | packages/argus-core/src/argus_core/jobs.py:23-39 | The tenths shown differ from 1000 * terminal / total by at most one half, in the middle they are even, and a job without rows shows 0 |
| `Jobs.HundredMeansDone` | packages/argus-core/src/argus_core/jobs.py:24-37 | With 1 to 1999 rows, 100.0 means that all are terminal |
| `Jobs.StatusChanges` | packages/argus-core/src/argus_core/jobs.py:42-64 | In every run a job's status changes only from running to completed, and only when it has rows and all are terminal at that moment |
| `Jobs.CompletedForever` | packages/argus-core/src/argus_core/jobs.py:45-64 | A completed job stays completed |
| `Scenarios.CompletedJobReopens` | services/crawler/src/crawler/main.py:231-246 | A crash-free run from the empty pipeline, for any one-page site whose crawl raises after the page is published: the job completes with all rows terminal, and in a continuation, still completed, has its row `claimed` for the retry |
| `Reopening.RowsStayTerminalIff` | packages/argus-core/src/argus_core/jobs.py:42-64 | In every reachable state, for every job: its rows are terminal in every continuation if and only if they are now, every discovery of it is claimed, every page of it is claimed or on its last attempt, its failures are the cleaner's or were handled, and each handler in progress ends without another crawl of it: the condition is given for each kind of handler. Proved both for continuations that deliver no handled failure again and for those that may |
| `Extraction.ExtractJsonLd` | packages/argus-core/src/argus_core/extraction/html_extractor.py:13-33 | Rescanning all items after each script gives the types of one first-occurrence pass over the final items; it raises exactly when a parsed list holds a non-object |
| `Extraction.ItemsAdded` | packages/argus-core/src/argus_core/extraction/html_extractor.py:23-26 | A script that is a list adds its elements, an object itself, any other nothing |
| `Extraction.TypesAdded` | packages/argus-core/src/argus_core/extraction/html_extractor.py:27-32 | An item adds the type it names, or the list of them, in order |
| `Extraction.ExtractLinks` | packages/argus-core/src/argus_core/extraction/html_extractor.py:87-98 | The loop gives the normalized links that pass the prefix test, deduplicated by first occurrence |
| `Extraction.LinksOfAnchors` | packages/argus-core/src/argus_core/extraction/html_extractor.py:90-97 | An anchor adds its stripped target, resolved, unless that is empty or starts with `#`, `javascript:`, `mailto:` or `tel:` |
| `UrlNormalize.NormalizeIdempotent` | packages/argus-core/src/argus_core/url_utils.py:10-50 | For absolute http(s) URLs, inner spaces included: normalizing twice is normalizing once if and only if the trimmed path, its parameters dropped, has no `;` in its last segment, and the canonical query is not empty or neither path nor, when it is empty, authority ends in a space |
| `UrlNormalize.NotIdempotent` | packages/argus-core/src/argus_core/url_utils.py:10-50 | Two URLs where it is not: one with path `/a;b/`, one with a path of `/a`, a space and `/` |
| `UrlNormalize.NoSemicolon` | packages/argus-core/src/argus_core/url_utils.py:38-41 | That holds whenever the path has no `;` at all |
| `UrlNormalize.SameNormalForm` | packages/argus-core/src/argus_core/url_utils.py:10-50 | Two such URLs have one normal form if and only if they agree on scheme, host up to case, port up to the default one, path up to parameters and trailing slashes with the root path aside, and query parameters up to order and encoding; what these parts of a raw URL are is in `UrlNormalize.SplitWritten`, `UrlNormalize.ParamsDropped`, `UrlNormalize.PortDropped` and `Query.OneParamPerField` |
| `UrlNormalize.SplitWritten` | packages/argus-core/src/argus_core/url_utils.py:12-26 | How a URL as it is written is split: scheme in lower case, authority, path, query behind the first `?`; the fragment is dropped |
| `UrlNormalize.SplitWithoutAuthority` | packages/argus-core/src/argus_core/url_utils.py:12-26 | The same of a URL without `//`, with or without a scheme |
| `UrlNormalize.LowerLetters` | packages/argus-core/src/argus_core/url_utils.py:14-15 | Letters, and nothing else, change case |
| `UrlNormalize.ParamsDropped` | packages/argus-core/src/argus_core/url_utils.py:12-26 | What follows a `;` in the last segment of a path is dropped; one further up stays |
| `UrlNormalize.PortDropped` | packages/argus-core/src/argus_core/url_utils.py:28-36 | A port is dropped exactly if it is the number 80 with http or 443 with https |
| `UrlNormalize.PyIntReads` | packages/argus-core/src/argus_core/url_utils.py:32-32 | Decimal digits, leading zeros included, are read as their number |
| `UrlNormalize.SchemelessIsHttp` | packages/argus-core/src/argus_core/url_utils.py:17-23 | A host, perhaps with a path, query or fragment behind it, is normalized as the URL of http it is short for |
| `UrlNormalize.AuthorityIsHttp` | packages/argus-core/src/argus_core/url_utils.py:14-15 | So is an authority without a scheme |
| `UrlNormalize.NormalFormAbsolute` | packages/argus-core/src/argus_core/url_utils.py:48-50 | The normal form is an absolute URL again, and parses to the canonical parts it was printed from; stripped first, to those parts without the spaces at their end |
| `UrlNormalize.PrintedIsAbsolute` | packages/argus-core/src/argus_core/url_utils.py:48-50 | Whatever canonical parts print is an absolute URL; stripped, it parses to those parts without the spaces at their end |
| `UrlNormalize.SplitUnparse` | packages/argus-core/src/argus_core/url_utils.py:48-50 | Parsing undoes printing on canonical parts |
| `UrlNormalize.SamePath` | packages/argus-core/src/argus_core/url_utils.py:38-41 | The trailing-slash rule: the root path is its own class |
| `UrlNormalize.SameAuthority` | packages/argus-core/src/argus_core/url_utils.py:28-36 | The default-port rule |
| `UrlNormalize.DomainIsHost` | packages/argus-core/src/argus_core/url_utils.py:58-64 | `extract_domain` is the host in lower case; normalizing first changes it if and only if the normal form is a bare host that ends in a space |
| `Query.ParseEncode` | packages/argus-core/src/argus_core/url_utils.py:45-46 | `parse_qsl` undoes `urlencode` |
| `Query.SortedUnique` | packages/argus-core/src/argus_core/url_utils.py:46-46 | There is one sorted list of given parameters |
| `Query.SameCanonicalQuery` | packages/argus-core/src/argus_core/url_utils.py:44-46 | Two queries have one canonical form exactly when they hold the same parameters, each as often; which these are is `Query.OneParamPerField` |
| `Query.OneParamPerField` | packages/argus-core/src/argus_core/url_utils.py:45-45 | Whatever the query, it has one parameter for each `&`-separated field that is not empty, in order: split at its first `=`, or with a blank value if there is none |
| `Query.ParseConcat` | packages/argus-core/src/argus_core/url_utils.py:45-45 | What stands before and behind a `&` is parsed on its own |
| `Query.BlankValueKept` | packages/argus-core/src/argus_core/url_utils.py:45-45 | A field without `=` is kept behind any others: with and without the `=` the canonical form is one, and another than without the field |
| `Query.EscapesAlike` | packages/argus-core/src/argus_core/url_utils.py:45-45 | Two escapes of one byte, as `+` and `%20`, or `%2f` and `%2F`, are alike anywhere in a query |
| `Query.CanonicalQueryPrints` | packages/argus-core/src/argus_core/url_utils.py:44-46 | The canonical form prints each parameter as often as the query has it, by name and then by value, quoted, with `=` and `&` |
| `Query.StringLeIsLexicographic` | packages/argus-core/src/argus_core/url_utils.py:46-46 | Texts are ordered as in a dictionary, by code point |
| `Query.CanonicalQueryAgain` | packages/argus-core/src/argus_core/url_utils.py:44-46 | Canonicalising a query again changes nothing |
| `Percent.QuoteRoundTrip` | packages/argus-core/src/argus_core/url_utils.py:45-46 | Every text survives UTF-8 encoding and percent-quoting, and its quoted form holds no delimiter |
| `Percent.QuoteAhead` | packages/argus-core/src/argus_core/url_utils.py:46-46 | Letters, digits and `_.-~` stand for themselves, a space becomes `+`, any other character the upper-case escapes of its UTF-8 bytes |
| `Percent.EscapeInside` | packages/argus-core/src/argus_core/url_utils.py:45-45 | An escape anywhere in a text is its byte, whatever stands around it |
| `Percent.PlainAhead` | packages/argus-core/src/argus_core/url_utils.py:45-45 | A character that is no `+` and starts no escape stands for itself, a `%` without two hex digits behind it among them |
| `Percent.DecodedOrReplaced` | packages/argus-core/src/argus_core/url_utils.py:45-45 | A character is only read from its own UTF-8 encoding; bytes that start none are replaced by U+FFFD |
| `Percent.ReplacedIsLongestStart` | packages/argus-core/src/argus_core/url_utils.py:45-45 | A replacement stands for the longest start of a character's encoding, or for one byte that starts none |
| `Percent.Utf8` | packages/argus-core/src/argus_core/url_utils.py:46-46 | The UTF-8 bytes of a character are its value in base 64 behind a lead byte that tells their number, no longer than necessary |

## Left out

- Kafka, Redis, PostgreSQL, MinIO and Playwright: only the atomic effect of each call; `Delivery` adds offsets, the
  other modules deliver any message in any order, any number of times.
- FastAPI endpoints, cron schedules, search, statistics, migrations, dashboards, metrics, tracing, proxies, robots.txt
  parsing and HTML parsing: wrappers and I/O around the modelled logic.
- NoSilentLoss.NoRowIsLost: says nothing of a row whose page the parser gave up on but its presence in the DLQ history,
  since the code never settles such a row.
- Submissions.CountsDistinctSeedsIff: the seed domains and the stale rows of a re-crawl are inputs; how the domains are
  cut from the seed URLs and how the rows are selected is not modelled.
- Guarantees.DiscoveredOnce: `seen` keys never expire, as in the code.
- TokenBucket.RateLimiter.Script: reals stand for Redis numbers and the clock never goes back; rounding of stored
  tokens is not modelled.
- Dedup.ClaimsBounded: one clock, in milliseconds, and one ttl for all claims.
- Jobs.ShowsHundred: the percentage is exact before it is rounded to one decimal, half to even.
- Retry.BackoffBounded: the delay is computed over reals.
- Delivery.BodyAtMostOnce: one consumer group for one stage; the topics of the retry worker and the replayer have no
  ledger and are not in this module.
- CleanerStore.TablesRefineMap: transactions run one after the other; two that insert the same URL at once, of which
  the unique constraint fails one, are not modelled.
- ContentHash.LookupsTrustedIff: the time to live is an expiry at any moment; how long a stale hash stays is not
  modelled.
- Text.CleanTextShape: lengths count Unicode code points; lone surrogates do not exist in the model's strings.
- Extraction.ExtractJsonLd: the elements of a type list are taken as the strings `str()` makes of them.
- UrlNormalize.NormalizeIdempotent: absolute http(s) URLs of printable ASCII, spaces included, with an authority
  `host` or `host:port` whose host is not blank. Relative URLs, authorities with several colons or brackets, control
  characters and non-ASCII hosts are outside it, and the ValueError that `urlparse` raises for unbalanced brackets is
  not modelled.
- UrlNormalize.SameAuthority: `int()` of a port is modelled with spaces, sign and underscores, without Python's limit on
  the number of digits.
