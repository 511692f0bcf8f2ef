# YasinPress publication queue: a verified model

YasinPress fetches news, stores articles and delivers each article to several destinations. At its
centre stands a durable publication queue: a rate-limited, leased, retrying work queue with
priorities, source fairness and versioned idempotency. It exists twice over the same tables: as a
single-job engine (`claim_next`, `run_once`) and as a batch processor (`process_cycle`). Around it
stand the ingest side (normalization, freshness gate, enqueueing), the direct publishing path, a
recovery watchdog and the bounded feed files.

This project models that logic in Dafny and proves what it promises. Check it with
`dafny verify dfyconfig.toml`.

## How it is built

- `Tables` holds the rows (jobs, delivery history, idempotency keys, articles) as maps with the upsert
  rules of the database layer, and `Store`, the object whose methods update them. A job is identified by
  a pair; `Keys` shows when the colon-joined text form identifies it too.
- `Views`, `Selection`, `Greedy`, `Claiming`, `Engine`, `Processor` and `Commits` are the two workers:
  the claim loops as imperative methods against short specifications, and each acknowledgement as the
  sequence of separately committed writes the code makes. `Columns`, `Choices` and `Effects` say what they
  do in terms of the fields of the rows alone: which rows a claim sees, which jobs it takes, and what a save,
  a recovery and an acknowledgement leave in every column.
- `Protocol` is the state machine of any number of workers over one store. A claim transaction, a
  recovery, reading the article, looking up the keys, calling the publisher and every single write of an
  acknowledgement are separate steps, and a worker may die between any two. `Exclusion`, `Limits`, `Once`,
  `Redundancy`, `Marking`, `Retry`, `Exhaustion` and `Draining` prove the claims about whole runs.
- `Findings` and `Repeats` give concrete runs from an empty store in which the unconditional form of a
  claim fails; `Rounds` and `Scenes` hold what these runs share.
- `Ingest`, `Catalog`, `Service`, `Gate` are the feed side; `FairBatch`, `Reliability`, `Orchestrator` the
  direct path; `Supervision` and `Feed` the two small state machines. `Base` holds
  sums and sizes of finite sets.

Time is an integer count of microseconds. Publishers are oracles that succeed or fail (an exception is a
failure). Priorities and text are opaque.

## Where the code falls short of the simple claim

The claims are proved for the conditions named here. Most conditions have a run or an exact statement
beside them; the others are named under "Left out".

- *Global limit.* `mark_success` saves the row before it records the delivery. Between the two writes
  the article counts nowhere, and another claim may take its slot: `Findings.CapFails` reaches two
  articles of one source under limits of one. `Limits.CapWithOvershoot` bounds the excess by the number of
  articles uncounted when a new one is admitted; `Limits.GlobalCap` is the case of none, and
  `Limits.ProcessorCap` needs no such assumption, since the processor records first. These speak of timely
  runs. `Limits.CapExactly` and `Limits.SourceCapExactly` say of every step, late ones included, exactly
  when it breaks a limit. All count recorded state: the history keeps one record per article and
  destination, so a later failure erases an earlier success.
- *Lease exclusion.* A worker whose lease has ended still writes its row. A late failure frees a job that
  the next worker holds (`Findings.ExclusionFails`). `Exclusion.ExclusiveExactly` says of every step
  exactly when it keeps exclusion.
- *One delivery per version.* `Once.OncePerVersion` assumes that no job is enqueued while it is leased, that
  a worker calls the publisher and writes within its lease and that, between the success of the publisher
  and the write of the version key, the lease of a job still held does not end, the worker does not die and
  the job is not enqueued again, and that no new version arrives under an engine. `Repeats` drops one of the
  last four assumptions at a time, keeps all others, and delivers one version twice;
  `Repeats.LateCallRepeats` does so by one late call alone.
- *Final success.* A worker that is late with a failure rewrites a row that the next worker has marked
  "succeeded", and the job is sent again (`Repeats.LateFailureRepeats`). `Once.DoneExactly` says exactly
  which steps reopen a job. `Once.DoneIsFinal` needs only that no worker has the job in hand any more;
  `Once.CommittedSuccessIsFinal` holds at once, but in timely runs.
- *Marked, not sent.* Two things mark a version that was never sent: the engine marks the version the
  article row has when it acknowledges (`Findings.VersionLost`), and a worker may skip a version for the
  sake of the unversioned key and then mark it (`Findings.VersionSkipped`). `Marking.VouchedExactly` shows
  that nothing else does, and `Marking.PlainlyMarkedMeansSent` gives a condition the workers could check.
- *Lost update.* An acknowledgement writes the article back as it was read before the publisher was called,
  so a version fetched in between disappears from the row (`Findings.UpdateLost`). Identity survives this
  (`Catalog.StableIdentity`); versions never go back exactly in the histories in which no copy is written
  back over a later version (`Catalog.AscendsExactly`).
- *Attempt limit.* Recovery does not compare attempts with a limit, so a job whose worker dies is claimed
  again although its attempts are used up (`Findings.SpentIsRetried`). `Retry.BoundedRetry` counts such
  attempts by the leases that expired; `Exhaustion` shows that no job is buried before its limit.
- *Hidden work.* `claim_next` looks only at the head job of each priority and source, so an already
  delivered head hides the jobs behind it: `Findings.WorkHidden` reaches such a state by a crash, and
  `Claiming.EmptyHandedExactlyWhen` says exactly when a claim comes back empty.
  `Redundancy.NeverRedundant` shows that such a head does not arise in timely runs in which a processor that
  has recorded a success saves its row before it dies or its lease ends, and in which jobs are enqueued
  later than the deliveries recorded for them.
- *Shortened hashes.* A news id names the day and six digits of the hash of the URL. Two URLs that agree in
  both get one id, and the second takes over the first one's row (`Catalog.HashesCollide`). The claims of
  `Catalog` about many fetches assume that the hashes of the URLs that occur differ;
  `Catalog.FirstRowKeepsExactly` is the exact condition for one new row.
- *Unknown time.* `normalize` judges an item before it restores the stored publication time. An article
  can be marked "timestamp_unknown" although it carries one (`Ingest.UnknownDespiteTime`), and without a
  stored update time its news time can go back (`Ingest.NewsGoesBackExactly`).
- *Colons.* Keys joined with colons collide when an id or a destination name contains one
  (`Keys.ColonsCollide`).

## Model

| member | source | states |
|---|---|---|
| `Tables.Store.AddJob` | yasinpress/database/sqlite.py:166-173 | saving over a row resets status, attempts, lease and next attempt, keeps priority, source and limit, and keeps the creation time unless a finished row becomes pending |
| `Tables.Store.Add` | yasinpress/database/sqlite.py:110-119 | one record per article and destination: the new one replaces the old |
| `Tables.Store.Mark` | yasinpress/database/sqlite.py:148-150 | a key, once marked, is one more seen key |
| `Tables.Store.Save` | yasinpress/database/sqlite.py:27-47 | the article's row is replaced under its id |
| `Tables.Store.GetEligibleJobs` | yasinpress/database/sqlite.py:187-190 | exactly the waiting rows whose times have come, each once, by priority descending and creation time ascending |
| `Tables.Store.GetAllJobs` | yasinpress/database/sqlite.py:184-185 | every row, each once, by creation time |
| `Tables.Store.GetStaleLeasedJobs` | yasinpress/database/sqlite.py:192-194 | exactly the processing rows whose lease is at or before now |
| `Tables.Store.AllRecords` | yasinpress/database/sqlite.py:121-123 | exactly the recorded deliveries, each once; their order is left open |
| `Tables.InsertKeepsOrder` | yasinpress/database/sqlite.py:187-190 | a row inserted into an ordered listing leaves it ordered, with that row added and nothing lost |
| `Columns.SavedExactly` | yasinpress/database/sqlite.py:166-175 | every column after a save: a first one stores the job; a later one takes status, attempts, lease and next attempt, keeps priority, source and limit, and takes the creation time only when a finished job becomes pending; no other row changes |
| `Columns.ListedExactly` | yasinpress/database/sqlite.py:187-190 | a claim sees exactly the pending and retrying jobs with neither next attempt nor lease in the future, each once, by priority descending and age |
| `Columns.RecoveredExactly` | yasinpress/publishing/queue.py:255-287 | a recovery puts every job whose lease is over back to waiting, whatever its attempts and limit: to retrying exactly when it was ever claimed, else to pending; it takes the lease away and changes nothing else |
| `Columns.RecoveredIsEligible` | yasinpress/publishing/queue_processor.py:50-61 | such a job can be claimed again right after the recovery unless its next attempt lies in the future |
| `Columns.LeasedExactly` | yasinpress/publishing/queue.py:166-188 | a claim leases exactly the chosen rows until now + lease, counts one attempt each, and changes nothing else |
| `Columns.OccupiesExactly` | yasinpress/publishing/queue.py:65-84 | exactly the articles with a success recorded in the last 3600 seconds or a job in work whose lease has not ended take up a slot |
| `Columns.CountedExactly` | yasinpress/publishing/queue.py:86-105 | which articles count against which source, exactly: those in work, and the delivered ones that have a row or, for the engine only, a job |
| `Columns.NewsTimeExactly` | yasinpress/database/models.py:31-38 | the news time is the nonzero update time, else the nonzero publication time, else unknown |
| `Views.RecentDeliveryState` | yasinpress/publishing/queue_processor.py:64-96 | the articles that occupy capacity are those delivered within the hour or processing under a live lease; each is counted once, under its own source or that of a job it was delivered by or is in work under |
| `Views.RecentSuccesses` | yasinpress/publishing/queue_processor.py:65-73 | exactly the successful records of the last hour, by article and destination |
| `Views.CountDelivered` | yasinpress/publishing/queue.py:86-99 | every delivered article with a row is counted under its source; without a row the engine falls back to the job's source |
| `Views.CountProcessing` | yasinpress/publishing/queue.py:101-105 | articles being processed are added unless already counted |
| `Views.CountsAreLoads` | yasinpress/publishing/queue_processor.py:75-96 | with consistent sources the count of a source is the number of its articles that occupy capacity |
| `Greedy.GreedyFeasible` | yasinpress/publishing/queue_processor.py:134-154 | a greedy run picks distinct candidates and overfills neither the slots nor any source |
| `Greedy.GreedyCount` | yasinpress/publishing/queue_processor.py:131-154 | at or above every priority, exactly min(slots, sum over sources of min(room, candidates)) articles are picked |
| `Greedy.GreedyOptimal` | yasinpress/publishing/queue_processor.py:131-154 | no choice within both limits admits more articles at or above any priority |
| `Selection.GroupArticles` | yasinpress/publishing/queue_processor.py:109-117 | each candidate article carries the best priority of its jobs, the source of the last one and the earliest creation time |
| `Selection.FillBuckets` | yasinpress/publishing/queue_processor.py:119-129 | the candidates are split by priority and source, oldest first |
| `Selection.Visit` | yasinpress/publishing/queue_processor.py:141-150 | one source's turn keeps the run greedy and the round even |
| `Selection.Pass` | yasinpress/publishing/queue_processor.py:141-152 | one round over the active sources |
| `Selection.SelectLevel` | yasinpress/publishing/queue_processor.py:134-152 | a priority level ends when the slots are used or every source there is exhausted or at its limit |
| `Selection.SortDescending` | yasinpress/publishing/queue_processor.py:134 | the priorities, each once, highest first |
| `Selection.SelectNewArticles` | yasinpress/publishing/queue_processor.py:98-154 | the chosen articles form a complete greedy run that is fair between the sources of a priority (a source neither exhausted nor capped is at most one pick behind) and oldest first within a source |
| `Selection.SelectionCount` | yasinpress/publishing/queue_processor.py:98-154 | the number chosen at or above every priority, and that no feasible choice has more |
| `Claiming.ClaimIsFirstWithRoom` | yasinpress/publishing/queue.py:107-164 | with no redundant job and nothing to fan out, the nested loops return exactly the first listed job whose source is below its limit, or none if there is no slot or no such job |
| `Claiming.EmptyHandedExactlyWhen` | yasinpress/publishing/queue.py:115-164 | the claim comes back empty exactly when nothing can be fanned out and either no slot is free or every job that could be opened stands behind a delivered head of its priority and source |
| `Engine.GroupJobs` | yasinpress/publishing/queue.py:107-113 | jobs grouped by priority and source in listing order |
| `Engine.FindFanOut` | yasinpress/publishing/queue.py:120-136 | the first further destination of an article already occupying capacity, in priority, source and job order |
| `Engine.FindOpenHead` | yasinpress/publishing/queue.py:138-161 | the first group head that may open a slot |
| `Engine.ChooseJob` | yasinpress/publishing/queue.py:107-164 | fan-out first, then a new article if a slot is free |
| `Engine.QueueEngine.ClaimNext` | yasinpress/publishing/queue.py:54-190 | leases exactly the chosen job, counts the attempt, and changes no other row |
| `Choices.FansOutFirst` | yasinpress/publishing/queue.py:115-136 | if any waiting job belongs to an article that takes up a slot and is newer than its slot's recent delivery, the claim takes such a job, ahead of all others by priority, age, and the age of its source's oldest job |
| `Choices.OpensInOrder` | yasinpress/publishing/queue.py:138-164 | otherwise, with a slot free, it takes an oldest job of a priority and source with room, no later in priority and age than any other that could be opened and does not stand behind a delivered one; and it comes back empty only if there is none |
| `Engine.QueueEngine.MarkSuccess` | yasinpress/publishing/queue.py:192-222 | row succeeded without lease, both keys marked, success recorded; nothing for a missing job |
| `Engine.QueueEngine.MarkFailure` | yasinpress/publishing/queue.py:224-253 | dead letter exactly when the attempts have reached the limit, otherwise retrying at now + base * 2^(attempts - 1); failure recorded; the missing job is reported |
| `Engine.QueueEngine.RecoverExpiredLeases` | yasinpress/publishing/queue.py:255-287 | every stale row goes back to retrying if it was ever claimed, else to pending, its other columns unchanged; the number of them is returned, none is left stale |
| `Engine.QueueEngine.Metrics` | yasinpress/publishing/queue.py:289-313 | the articles delivered in the last hour and the capacity left, as the next claim would see them |
| `Engine.QueueEngine.Settle` | yasinpress/publishing/queue.py:326-370 | dead letter for a missing article or publisher, a skip for a known version, otherwise the publisher's answer acknowledged |
| `Engine.QueueEngine.RunOnce` | yasinpress/publishing/queue.py:315-370 | claim, deliver, acknowledge as one function of the state before |
| `Engine.SuccessCommits` | yasinpress/publishing/queue.py:199-222 | the engine's separate success writes, made without interruption, have the effect of `mark_success` and the article save |
| `Engine.FailureCommits` | yasinpress/publishing/queue.py:224-253 | the same for its failure writes |
| `Engine.RecoverLeases` | yasinpress/publishing/queue_processor.py:31-62 | recovery as both workers do it |
| `Processor.QueueProcessor.ChooseBatch` | yasinpress/publishing/queue_processor.py:170-193 | the listed jobs of occupying and newly selected articles, less those whose version was already delivered |
| `Processor.KeepUndelivered` | yasinpress/publishing/queue_processor.py:180-191 | exactly the wanted jobs without a success within the hour, or with an article dated later than that success |
| `Choices.BatchedExactly` | yasinpress/publishing/queue_processor.py:178-191 | a batch takes a job if and only if it waits, its article takes up a slot or was selected, and its slot has no success within the hour or the article's time is later than that success |
| `Choices.UpdateIsBatched` | yasinpress/publishing/queue_processor.py:186-190 | the waiting job of an update later than its recent delivery is in every batch, whatever the free slots |
| `Choices.SelectedAreCandidates` | yasinpress/publishing/queue_processor.py:98-117 | only articles with waiting jobs that take up no slot are selected, no more than slots are free |
| `Choices.SelectedInOrder` | yasinpress/publishing/queue_processor.py:131-154 | a candidate stays out only if the slots are used up or its source is full; its source is full if one of lower best priority got in; and one of equal source and priority that got in has a job at least as old |
| `Choices.SelectedEvenly` | yasinpress/publishing/queue_processor.py:138-152 | while a source that is not full has a candidate of some best priority left, no other source got more than one article of that priority more than it |
| `Choices.SourceOfLast` | yasinpress/publishing/queue_processor.py:109-117 | an article whose waiting jobs differ in source counts for that of the last listed one |
| `Processor.LeaseAll` | yasinpress/publishing/queue_processor.py:195-204 | every chosen row leased once, no other row changed |
| `Processor.QueueProcessor.ClaimBatch` | yasinpress/publishing/queue_processor.py:168-204 | the claim transaction as one step; the batch is in order of priority and creation |
| `Processor.QueueProcessor.HandleOne` | yasinpress/publishing/queue_processor.py:207-282 | delivering and acknowledging one job equals the model's writes in order |
| `Processor.QueueProcessor.HandleBatch` | yasinpress/publishing/queue_processor.py:206-284 | the claimed jobs handled one after the other, with one result each in that order, except for jobs without article or publisher |
| `Processor.QueueProcessor.ProcessCycle` | yasinpress/publishing/queue_processor.py:156-284 | recovery, one claim, then every claimed job: the final state and the list of results |
| `Processor.CommitsInOrder` | yasinpress/publishing/queue_processor.py:251-281 | the processor's separate writes in their order |
| `Effects.DeliversExactly` | yasinpress/publishing/queue.py:326-352 | both workers: no delivery without article or publisher; a skip exactly when the version's key is marked, or the unversioned key is and the article is not later than its delivery mark (engine) or its recorded success (processor) |
| `Effects.SuccessLeaves` | yasinpress/publishing/queue_processor.py:251-270 | both workers: row succeeded without lease, success recorded with the job's attempts, the unversioned key and that of the version marked, the article's delivery mark set, and nothing else |
| `Effects.AcknowledgedById` | yasinpress/publishing/queue.py:192-222 | the acknowledgement by id alone: nothing for an unknown job, no version key without an article row |
| `Effects.FailureLeaves` | yasinpress/publishing/queue_processor.py:271-281 | both workers: dead letter exactly at the attempt limit; otherwise the job can be claimed again from base * 2^(attempts - 1) after the failure on, and not before |
| `Effects.MissingLeaves` | yasinpress/publishing/queue.py:326-336 | without article or publisher the row is dead at once, and nothing is recorded |
| `Effects.BatchAsAlone` | yasinpress/publishing/queue_processor.py:206-284 | every job of a batch leaves in its row, record and keys what it would leave if handled alone |
| `Effects.ResultsExactly` | yasinpress/publishing/queue_processor.py:206-284 | one result for each job with article and publisher, in their order, each that of its own delivery |
| `Protocol.SoundStep` | yasinpress/publishing/queue.py:166-188 | no step of any worker loses a job, and a job has a lease exactly while it is processing |
| `Protocol.TakesOnlyEligible` | yasinpress/publishing/queue_processor.py:172-191 | claims take eligible jobs only |
| `Protocol.Uninterrupted` | yasinpress/publishing/queue.py:330-370 | the steps of a worker that is not interrupted have together exactly the effect of handling the job at once, as the methods of both workers do it |
| `Exclusion.ExclusiveStep` | yasinpress/publishing/queue.py:166-188 | every timely step of any number of workers keeps exclusion |
| `Exclusion.ExclusiveExactly` | yasinpress/publishing/queue.py:192-253 | every step keeps exclusion, except an enqueue of a held job and a write that gives up a job which another worker holds: an if and only if over all steps |
| `Exclusion.AtMostOneHolder` | yasinpress/publishing/queue_processor.py:195-204 | in every timely run at most one worker holds a job before its lease ends |
| `Exclusion.RunExclusive` | yasinpress/publishing/queue.py:255-287 | exclusion and conservation of jobs over every timely run |
| `Exclusion.RecoveryLeavesNoStale` | yasinpress/publishing/queue_processor.py:50-61 | after recovery every processing row has a lease beyond now |
| `Limits.TakesAdmit` | yasinpress/publishing/queue.py:83-84 | a claim admits new articles only within the global limit; further destinations of an admitted article cost nothing |
| `Limits.TakesAdmitSource` | yasinpress/publishing/queue_processor.py:142 | the same for the limit of a source |
| `Limits.CapWithOvershoot` | yasinpress/publishing/queue.py:83-84 | in every timely run in which at most n articles are uncounted whenever a new one is admitted, the limit is exceeded by at most n |
| `Limits.GlobalCap` | yasinpress/publishing/queue.py:61-222 | in every timely run in which no article is uncounted when a new one is admitted, the distinct articles delivered within the hour or being processed never exceed the global limit |
| `Limits.ProcessorCap` | yasinpress/publishing/queue_processor.py:251-281 | with batch processors alone the global limit holds in every timely run |
| `Limits.SourceCap` | yasinpress/publishing/queue_processor.py:75-96 | with consistent sources no source exceeds its limit by more than the articles uncounted at an admission |
| `Limits.RecordExactly` | yasinpress/publishing/queue.py:202-222 | recording a success keeps the limit exactly when the article was still counted, the record is too old to count, or a slot was free |
| `Limits.CapExactly` | yasinpress/publishing/queue.py:61-222 | every step of any state within the limit keeps it, except recording a recent success of an article that no longer counts when the limit is used up: an if and only if over all steps, late ones included |
| `Limits.SourceCapExactly` | yasinpress/publishing/queue_processor.py:75-96 | the same for the limit of a source, with consistent sources |
| `Once.OncePerVersion` | yasinpress/publishing/queue.py:342-370 | in every careful run mixing both workers the publisher succeeds at most once per article, destination and version; crashes, lapses and new enqueues after the version key is written are allowed |
| `Redundancy.NeverRedundant` | yasinpress/publishing/queue.py:149-154 | in timely runs in which a processor that recorded a success saves its row before it dies or its lease ends, and jobs are enqueued later than their deliveries, no eligible job is at or before a recent delivery of its article and destination |
| `Once.CommittedKeyIsFinal` | yasinpress/publishing/queue_processor.py:236-265 | once a version key is committed, whatever follows, every further delivery of that version comes from a worker that had looked up the keys before: at most one from each, and none joins them |
| `Once.NoAskersNoDelivery` | yasinpress/publishing/queue_processor.py:236-247 | with no such worker left, no crash, recovery, claim, enqueue or late worker leads to another delivery of the version |
| `Once.DoneExactly` | yasinpress/publishing/queue.py:224-240 | exactly which steps, in any state and however late, take "succeeded" away from a job: a new enqueue, a failing row write and a dead-letter save by a worker that still has it in hand |
| `Once.DoneIsFinal` | yasinpress/publishing/queue.py:192-202 | once a job is done and no worker has it in hand, nothing delivers it again in any run, late workers and crashes included, until it is enqueued anew |
| `Once.CommittedSuccessIsFinal` | yasinpress/publishing/queue.py:199-202 | from a state with exclusion, in timely runs, a job whose status "succeeded" is committed is not delivered again before it is enqueued anew, even while late workers have it in hand |
| `Marking.VouchedExactly` | yasinpress/publishing/queue_processor.py:233-245 | exactly which steps make an unsent version pass for delivered: a skip for the sake of the unversioned key, and the version write of an engine that finds another version in the row |
| `Marking.MarkedMeansSent` | yasinpress/publishing/queue.py:206-210 | in every run without such steps, late or crashing workers included, every marked version was sent |
| `Marking.PlainlyMarkedMeansSent` | yasinpress/publishing/queue.py:334-347 | if the unversioned key never decides and every engine still finds the version it read, every marked version was sent, in late and crashing runs too |
| `Marking.MarkedMeansSentOnce` | yasinpress/publishing/queue.py:334-352 | in careful runs in which the unversioned key never decides, every marked version was sent exactly once |
| `Retry.BoundedRetry` | yasinpress/publishing/queue_processor.py:271-281 | since its last enqueue a job's attempts are its claims, its failures stay within the limit, and its attempts exceed the limit at most by its expired leases |
| `Retry.CumulativeBackoff` | yasinpress/publishing/queue.py:236-240 | without expiries the k-th claim comes no earlier than the first plus base * (2^(k-1) - 1) |
| `Exhaustion.BuriedIsUsedUp` | yasinpress/publishing/queue.py:232-240 | in any run, timely or not: from any moment at which a job is not buried, and while its article and publisher are found, it is buried only after as many attempts as the smaller of its two limits |
| `Exhaustion.BuriedAfterClaims` | yasinpress/publishing/queue_processor.py:271-281 | in timely runs that many claims were made since its last enqueue |
| `Exhaustion.BackoffExactly` | yasinpress/publishing/queue.py:236-240 | with one retry base and without expiries, a job that was claimed and waits again has its next attempt exactly base * 2^(claims - 1) after the last claim |
| `Retry.FinitelyManyClaims` | yasinpress/publishing/queue.py:166-168 | without further enqueues and expired leases only as many claims are made as the jobs have chances left |
| `Retry.SpentMeansNoClaim` | yasinpress/publishing/queue.py:232-234 | with no chances left nothing can be claimed |
| `Draining.DrainEnds` | yasinpress/publishing/queue.py:166-168 | no sequence of claims at one time, complete or not, is longer than the number of eligible jobs |
| `Draining.Drain` | yasinpress/publishing/queue.py:54-190 | repeating `claim_next` until it returns nothing terminates from every store, and what it claimed is a drain |
| `Draining.DrainMatchesBatch` | yasinpress/publishing/queue_processor.py:98-204 | from a state without redundant jobs, draining with `claim_next` and one batch claim admit the same number of new articles at or above every priority |
| `Draining.FairStartReached` | yasinpress/publishing/queue_processor.py:98-204 | every state reached from an empty store by timely runs in which jobs are enqueued later than their deliveries, processors finish what they recorded and sources are consistent, is one from which the two claim designs admit equally many |
| `Findings.CapFails` | yasinpress/publishing/queue.py:202-222 | a timely run of the engine exceeds the global limit and the limit of a source |
| `Findings.ExclusionFails` | yasinpress/publishing/queue.py:224-240 | a late acknowledgement puts one job in two workers' hands |
| `Findings.SpentIsRetried` | yasinpress/publishing/queue.py:262-267 | a timely run in which a job that may be tried once is recovered and claimed a second time, without any failed delivery |
| `Findings.WorkHidden` | yasinpress/publishing/queue.py:148-154 | a run after which every claim comes back empty although a slot is free and a job could be opened |
| `Findings.VersionLost` | yasinpress/publishing/queue.py:206-210 | a timely run in which a version that a fetch merges into the row is marked by the engine and never sent, whatever follows |
| `Findings.UpdateLost` | yasinpress/publishing/queue.py:360-364 | the same run goes on to take the fetched update time out of the article row |
| `Findings.VersionSkipped` | yasinpress/publishing/queue_processor.py:233-243 | a timely run in which the processor skips and marks a version, merged by a fetch, for the sake of the unversioned key; it is never sent, whatever follows, though the engine would have sent it |
| `Repeats.LapseRepeats` | yasinpress/publishing/queue.py:354-358 | a version delivered twice in a run that is careful but for a lease that ends before the first write |
| `Repeats.DeathRepeats` | yasinpress/publishing/queue.py:354-358 | the same when the worker dies there |
| `Repeats.ReenqueueRepeats` | yasinpress/database/sqlite.py:166-173 | the same when the job is enqueued again between the row write and the key writes |
| `Repeats.NewVersionRepeats` | yasinpress/publishing/queue.py:206-210 | the same when a new version arrives under the engine |
| `Repeats.LateCallRepeats` | yasinpress/publishing/queue.py:342-350 | a careful run after which one late call sends a version whose key is already committed |
| `Repeats.LateFailureRepeats` | yasinpress/publishing/queue.py:224-240 | careful but for one late failure write: it reopens a job committed as succeeded, and the version is sent again with no new enqueue |
| `Keys.TextIsInjective` | yasinpress/publishing/queue_processor.py:224-226 | for colon-free ids and destinations the three text forms of keys never coincide |
| `Keys.JobIdIsInjective` | yasinpress/pipeline/service.py:199 | the same for job ids |
| `Keys.ColonsCollide` | yasinpress/publishing/orchestrator.py:48-58 | with a colon in a part, two jobs share an id and two keys a text |
| `Ingest.Get` | yasinpress/database/sqlite.py:56-58 | some row whose id or URL is the key, none only if there is none |
| `Ingest.Normalize` | yasinpress/processing/normalization.py:12-108 | the branches of the code compute the merge of the item with the stored row |
| `Ingest.MergedInColumns` | yasinpress/processing/normalization.py:12-108 | every stored column: URL, source and text of the item; the later update time, zero counting as none; the item's publication time if valid; when the time is known; the id kept or built from day and hash |
| `Ingest.MarkClearedExactly` | yasinpress/processing/normalization.py:60-92 | the delivery mark is cleared exactly when the news time advances by more than 5 000 000 microseconds or becomes known; an update time before 1970 is the named exception |
| `Ingest.VersionNeverDecreases` | yasinpress/processing/normalization.py:41-50 | a stored update time never decreases, nor, once it is valid, the news time |
| `Ingest.NewsGoesBackExactly` | yasinpress/processing/normalization.py:78-81 | without a stored update time the news time goes back exactly when the item brings an earlier one |
| `Ingest.UnknownDespiteTime` | yasinpress/processing/normalization.py:70-81 | exactly when an article that carries a news time is marked as of unknown time |
| `Ingest.FetchTwice` | yasinpress/processing/normalization.py:12-108 | fetching the same item again changes nothing, the delivery mark included |
| `Catalog.FoundByUrl` | yasinpress/database/sqlite.py:56-58 | the row found for a URL is the one row of that URL, for URLs with different shortened hashes |
| `Catalog.StableIdentity` | yasinpress/processing/normalization.py:25-108 | for URLs with different shortened hashes: over any sequence of fetches (their rows saved with any text), reads and acknowledgements that write stale copies back, a URL keeps one row and one id |
| `Catalog.SaveBackExactly` | yasinpress/publishing/queue.py:360-364 | writing a copy back keeps the stored version exactly when the stored update time is not later than the copy's; after fetches alone, exactly when it is still the same |
| `Catalog.FirstRowKeepsExactly` | yasinpress/processing/normalization.py:83-84 | saving the first row of a URL keeps every other row exactly when its id is still free |
| `Catalog.HashesCollide` | yasinpress/processing/normalization.py:76-84 | two URLs with one shortened hash and news of one day: the second fetch takes over the row of the first |
| `Catalog.AscendsExactly` | yasinpress/publishing/queue_processor.py:265-270 | for URLs with different shortened hashes: no event takes a version back exactly in the histories in which every copy written back is up to date |
| `Catalog.SameIdEachTime` | yasinpress/processing/normalization.py:78-84 | for URLs with different shortened hashes: two fetches of a URL, whatever happened in between, yield the same id |
| `Service.ProcessingService.UniqueItems` | yasinpress/pipeline/dedup.py:17-26 | exactly the first item of every URL, in the order of the batch |
| `Gate.KeptInColumns` | yasinpress/processing/validator.py:6-9 | exactly the items with a title and a web address that are the first of their URL are merged |
| `Service.ProcessingService.NormalizeAll` | yasinpress/pipeline/runtime.py:32-58 | every valid item merged with the rows from before the fetch, invalid ones counted |
| `Service.ProcessingService.Sift` | yasinpress/pipeline/service.py:155-170 | stale, fully delivered and undelivered articles partition the batch, with the exact count of the first two |
| `Service.ProcessingService.Enqueue` | yasinpress/pipeline/service.py:198-223 | one job per destination that needs one, and exactly how many those are |
| `Service.ProcessingService.Process` | yasinpress/pipeline/service.py:146-231 | the whole queue-mode fetch as a function of the store before, with the counts of stale and of delivered articles |
| `Service.ProcessingService.ProcessItems` | yasinpress/pipeline/application.py:59-67 | processing, then saving every article of the report: a fresh one with its rewritten text, any other as merged |
| `Gate.OnlyFreshEnqueued` | yasinpress/pipeline/service.py:96-105 | a row changes only for an article of the batch of known time, dated within the age limit, and a configured destination |
| `Gate.EnqueuedExactly` | yasinpress/pipeline/service.py:182-223 | in a batch of different articles a row is set to a first attempt exactly when the article is wanted and the row missing, the article unmarked or outdated; otherwise it stays |
| `Gate.EnqueuedInColumns` | yasinpress/pipeline/service.py:155-223 | the same spelled out: the age limit, the keys, the mark and its five seconds; and every column of the row, new or old |
| `Gate.FreshIsEnqueued` | yasinpress/pipeline/service.py:155-223 | the converse of the gate, for every batch: an article of known time within the age limit without delivery mark gets a job for each configured destination that has none |
| `Gate.CountsInColumns` | yasinpress/pipeline/service.py:152-170 | what counts as old and as duplicate |
| `Gate.ReingestIsQuiet` | yasinpress/pipeline/service.py:202-208 | re-fetching an unchanged, delivered item leaves every row of its article unchanged |
| `Gate.EveryChangeWasFresh` | yasinpress/pipeline/service.py:155-223 | in any run whatever a fetch changes in the queue, a new job or one set back to a first attempt, belongs to a configured destination of an article of known time that is within the age limit at that moment |
| `Gate.EveryJobWasFresh` | yasinpress/pipeline/service.py:155-170 | in any run every new job was created by a fetch in which its article was of known time and within the age limit |
| `FairBatch.SortNewest` | yasinpress/pipeline/service.py:127-132 | newest first, equal times in their old order, nothing lost |
| `FairBatch.NewestFirstExactly` | yasinpress/pipeline/service.py:127-131 | the order spelled out: by update time, else publication time, undated articles at time zero |
| `FairBatch.Distribute` | yasinpress/pipeline/service.py:131-132 | each source's articles in order |
| `FairBatch.Turn` | yasinpress/pipeline/service.py:136-143 | one round over the sources; every round makes progress |
| `FairBatch.SelectFairBatch` | yasinpress/pipeline/service.py:124-144 | exactly min(limit, articles) picks, in rounds, prefixes of each source's order, no source more than one ahead of one that has articles left |
| `Reliability.ReliablePublisher.Publish` | yasinpress/publishing/reliability.py:31-50 | recorded attempts are the calls made, and between calls exactly the policy's delays are slept |
| `Reliability.TriesStopAtSuccess` | yasinpress/publishing/reliability.py:34-47 | all calls but the last failed, the last decides, and without success the limit is used up |
| `Reliability.SleepIsBounded` | yasinpress/publishing/reliability.py:16-17 | total sleep is at most (attempts - 1) times the maximal delay |
| `Reliability.DelaysGrow` | yasinpress/publishing/reliability.py:16-17 | delays never shrink from one attempt to the next |
| `Reliability.DelaysDouble` | yasinpress/publishing/reliability.py:16-17 | the first delay is the base, every further one twice the one before, up to the maximum |
| `Orchestrator.PublishingOrchestrator.PublishOne` | yasinpress/publishing/orchestrator.py:55-91 | one destination skipped exactly when the key of this update time, or for an article without one the unversioned key, is marked; otherwise served, recorded and keyed |
| `Orchestrator.PublishingOrchestrator.Publish` | yasinpress/publishing/orchestrator.py:53-92 | all destinations in order, one result each |
| `Orchestrator.SentOnce` | yasinpress/publishing/orchestrator.py:46-92 | over any sequence of calls each destination succeeds at most once per update time, and an article without one is never sent after any success |
| `Orchestrator.SkipsExactlyTheSent` | yasinpress/publishing/orchestrator.py:55-91 | over any sequence of calls from an empty desk: a destination is skipped if and only if this version of the article was sent to it before; otherwise it succeeds if and only if one of the next answers within the limit does, and the log gains exactly that send |
| `Orchestrator.SendLeaves` | yasinpress/publishing/orchestrator.py:74-91 | keys, record and calls after a send |
| `Orchestrator.RecordedAttempts` | yasinpress/publishing/orchestrator.py:76-87 | the recorded attempts are the calls made and the recorded outcome is the last call's |
| `Orchestrator.Independent` | yasinpress/publishing/orchestrator.py:55-92 | one destination's failures never change another's result, record or keys |
| `Supervision.Heartbeat.Touch` | yasinpress/scheduler/watchdog.py:21-25 | healthy at that time, attempts reset only on request |
| `Supervision.Watchdog.Register` | yasinpress/scheduler/watchdog.py:40-42 | a new heartbeat for a nonempty name; the last recovery time is kept |
| `Supervision.Watchdog.Touch` | yasinpress/scheduler/watchdog.py:43-47 | registers an unknown component, then touches it without reset |
| `Supervision.Watchdog.TryRecover` | yasinpress/scheduler/watchdog.py:58-66 | the attempt is counted and timed; success clears both, an exception counts as failure |
| `Supervision.Watchdog.Inspect` | yasinpress/scheduler/watchdog.py:48-67 | every component inspected in order of registration |
| `Supervision.InspectsExactly` | yasinpress/scheduler/watchdog.py:48-67 | what an inspection does to each component, whatever the others: spared, degraded, failed, cooling down, or its recovery called once, with every field afterwards |
| `Supervision.SeenIsSpared` | yasinpress/scheduler/watchdog.py:48-51 | a component that is not stale is left alone |
| `Supervision.RegisterStarts` | yasinpress/scheduler/watchdog.py:40-42 | a registration starts a component afresh and keeps the time of its last recovery |
| `Supervision.TouchKeeps` | yasinpress/scheduler/watchdog.py:43-47 | a touch makes a component healthy and seen now, and keeps its attempts and recovery time |
| `Supervision.BoundedRecovery` | yasinpress/scheduler/watchdog.py:40-67 | in every run callbacks since the last recovery or registration stay within the limit, two callbacks are at least min(cooldown, staleness) apart, and a failed component has used up its budget |
| `Feed.FeedFile.Publish` | yasinpress/publishing/pwa.py:81-99 | the entry moves to the front, the list is cut, and the file stays the top of the unbounded board |
| `Feed.CutOnceAtTheEnd` | yasinpress/publishing/rss.py:75-77 | cutting at every publication equals cutting once at the end |
| `Feed.BoardIsLatest` | yasinpress/publishing/pwa.py:95-97 | the board holds exactly the latest publication of every key |
| `Feed.BoardIsNewestFirst` | yasinpress/publishing/rss.py:105-113 | it lists them from the latest to the earliest |

## Left out

- HTTP, feed parsing, network publishers, AI providers and text heuristics: foreign calls and keyword
  tables; a publisher is an oracle, and priority and rewriting are arbitrary functions.
- SQL, migrations, file writing and JSON or XML encoding: tables are maps, and a stored list reads back as
  written.
- Clock reads, time zones and the text form of times: every call takes its time as a parameter.
- Concurrent access within one transaction: a claim and a recovery are single steps, as their immediate
  transactions make them; the engine's read of a row and the write that follows it in `mark_success` and
  `mark_failure` are one step too, and so are a worker's lookups of the two keys and of the recorded
  delivery. The engine's record takes the attempts of the row at that write, the code those of the row
  read at its first write.
- Separate settings of the two workers: one lease and one pair of limits serve both; retry bases and attempt
  limits are separate, as in the code.
- A recovery callback that itself touches or registers a component: a callback only succeeds or fails.
- Shortened hashes: `Catalog.StableIdentity`, `Catalog.AscendsExactly` and `Catalog.SameIdEachTime` assume that
  the URLs that occur have different ones and do not look like ids (`Catalog.HashesCollide` shows why).
- Publisher names: a worker looks up keys under the publisher's name and marks them under the job's
  destination; the two are taken to be equal.
- A fetch that overlaps another one: in `Catalog` the items of one fetch are merged and saved in one step,
  with reads and acknowledgements of the workers before and after it.
- Error texts, priority level names, external ids and the counts of the reports other than those named.
- The order of rows that SQL leaves open (ties) is left open, and so is the order in which a batch claim's
  tasks proceed: the protocol allows every interleaving.
- Jobs of a batch with equal priority and creation time: the code goes on by source and destination, the
  model leaves their order open; `Effects.BatchAsAlone` shows that it does not matter to what they leave.
- Source of a job: the per-source claims assume that jobs and stored articles of one id carry one source.
- The recovery path of `recover_expired_leases` without a database connection, which makes the same
  changes one row at a time.
- Direct publishing inside `process` (the branch without a queue): its parts are modelled, their
  composition with the hourly count is not.
- Article lookup by URL inside the queue: `articles.get` also matches URLs; the queue model looks up by id,
  and no id is taken to equal a URL. `Ingest` models the lookup by either.
- Fetch details: titles and URLs are taken as already stripped, and one fetch has one time, which names the
  day in the id of an undated article.
- Delays are whole microseconds; the half delay the formula gives for a job without attempts rounds down.
- Items without a URL are deduplicated by content in the code; validation rejects them afterwards, so the
  model drops the content key.
- In-memory stores, metrics of queue depth, pagination, command line, scheduler loops and the web client:
  easy or thin beside the queue.
- Once.OncePerVersion: assumes what the runs of `Repeats` show to be needed; nothing is committed before the
  publisher is called, so a crash after it can repeat the delivery.
- Redundancy.NeverRedundant: of its conditions, `Findings.WorkHidden` drops the first, that a processor does
  not die between its record and its row.
- Gate.EnqueuedExactly and Gate.ReingestIsQuiet speak of batches whose articles have different ids, which
  fetches produce (`Catalog.FetchSucceeds`); the other claims of `Gate` need no such condition.
- Limits.GlobalCap: assumes acknowledgements within the lease and that no article is uncounted at an
  admission; without the latter it is false (Findings.CapFails).
- Tables.Store.AllRecords: the order of the records, by row number, is not modelled; the claims use them as
  a set and hold for every order.
