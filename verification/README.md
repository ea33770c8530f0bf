# jobRadar: a verified model of collecting, crawling and notifying

jobRadar crawls job sites on a schedule, compares what it finds with the stored postings, keeps the
ones its keywords ask for, and announces new matches once a day. This project models the part of it
that keeps state, in Dafny, and proves what that part promises over every input and every history.

The tables are values (`Schema.Database`), a transaction works on a `Session` that holds one, and a
savepoint is a copy taken before and put back on failure. A deletion waits in the session for the next
flush, as it does in the ORM. Each service of the program is a class whose methods change the session
in the program's own order of statements and are verified against a function of the tables; the
theorems are about those functions.

| file | what it holds |
|---|---|
| `Schema`, `Prelude` | rows, transfer objects, the library behaviour that is left open (`Platform`) |
| `Normalizer`, `NormalizerTheorems`, `NormalizedText` | text normalisation, leading tags, which raw field becomes what, digest inputs |
| `KeywordMatcher`, `KeywordTheorems` | the keyword verdict and its evidence |
| `Collector`, `CollectorTheorems`, `CollectTwice` | one collection: upsert, revisions, filter, closing pass; the same batch again |
| `QuietHours`, `Dispatcher`, `DispatcherTheorems`, `DispatchReplies` | one dispatch: queueing, retries, quiet hours, what replies make of rows, summary and subscriptions |
| `Retention`, `RetentionTheorems` | one retention run |
| `History`, `HistoryTheorems` | any sequence of collections, dispatches, retention runs and keyword edits |
| `AuditTrail` | the revisions over any history, told field by field |
| `HistoryExamples` | histories in which promises of the program end, and data that makes them possible |
| `Locks`, `CrawlRunner` | one call of `run_source` under its advisory lock |
| `Drafts` | a collecting transaction while it runs, next to what others commit |
| `CrawlProtocol` | any number of callers, interleaved job by job and statement by statement, with crashes |
| `CrawlLocks`, `CrawlRuns`, `CrawlSerial` | locks, run rows and serialisability over that protocol |
| `CrawlBreaker`, `DropBaseline`, `DropRule` | circuit breaker and drop rule over that protocol |
| `RateLimit` | request spacing and response size of the HTTP client |

## How the parts fit

`History` runs whole transactions one after the other. `CrawlProtocol` lets any number of callers of
`run_source`, crashes, database faults, ended sessions, administrators, dispatches and retention runs
interleave. A collecting transaction is open over many steps there: one for every job, one for the
closing pass and one for the commit. Each of them reads what is committed at that moment next to the
transaction's own uncommitted rows, and others commit in between. `CrawlSerial` proves that the
outcome is that of a serial history: whatever was interleaved, postings, matches, revisions and
notifications are those of the committed transactions, run whole in the order of their commits. So the
results of `History` hold for concurrent callers. They do not need commits to be apart in time: two
collections of different sources may overlap, as they do in the program.

New primary keys are part of a history: a collection carries the values its jobs drew from the
sequence, which is the one thing an interleaving decides.

The breaker and the drop rule are proved on the protocol, where both rest on mutual exclusion. The
protocol can end the session of a caller that works on, and it can let a lock statement raise after it
took the lock. Mutual exclusion and the state of the pool are stated for both; the results that rest
on exclusion are about runs in which no working caller's session was ended (`lost == {}`).

## Where the program does less than it says

These are kept as they are in the program and stated as lemmas.

- A second run of an unchanged source is to find nothing new (requirement FR-05, 세부기획서.md:96).
  For a batch that is accepted this holds exactly when the jobs it shows under one identity agree: all
  filtered out, or all kept with one content hash (`CollectTwice.CollectTwiceChangesNothing`).
  Otherwise a posting can be inserted and deleted in every run (`CollectTwice.RepeatedIdentityIsNewAgain`).
- Sessions do not flush by themselves (app/core/db.py:17), so a rejected posting is still there when
  the next job is upserted. A job of the same identity that follows at once, and has evidence, then
  violates a foreign key and fails the whole batch. `CollectorTheorems.CollectSucceedsExactly` says
  when a batch is accepted; where neighbours differ in identity nothing of the kind happens
  (`CollectorTheorems.ApartNeverClash`).
- The constraint on (posting, channel) is to rule out a second announcement (세부기획서.md:570). It
  does so per posting row for lookbacks of at most ninety days (`HistoryTheorems.AtMostOneAnnouncement`),
  and every longer lookback can announce a row twice (`HistoryExamples.LongLookbackAnnouncesTwice`). A
  listing can be announced once more than its stored posting was deleted, and no more often
  (`HistoryTheorems.AtMostOneAnnouncementPerLife`). Postings are deleted two days past their deadline
  and when the filter rejects a job of theirs, also while the site still lists them; both give two
  messages (`HistoryExamples.ExpiredListingIsAnnouncedTwice`,
  `HistoryExamples.FilteredListingIsAnnouncedTwice`). A listing that is spared both is announced at
  most once (`HistoryTheorems.SparedListingIsAnnouncedOnce`).
- The breaker opens on `==`. An active source is at or over the threshold exactly when somebody
  switched it on there and it has not succeeded since (`CrawlBreaker.OverTheThresholdExactly`); such a
  source goes on failing and stays active (`CrawlBreaker.ReactivatedSourceNeverTrips`).
- A manual dispatch is documented to skip both the schedule and quiet hours (README.md:116-117). A row
  queued earlier with a later `scheduled_at` still waits
  (`DispatcherTheorems.ForcedDispatchWaitsForSchedule`).
- The lock is given back on every path but one: when the lock statement raises, the connection goes
  back to the pool as it is. If the statement had taken the lock, the pool then holds it and the source
  is refused to everybody else (`CrawlLocks.RaisedLockBlocksTheSource`). That is the only way for the
  pool to hold a lock (`CrawlLocks.PoolIsCleanExactly`).
- The lock lives on the holder's connection. If the server ends that session while the caller works
  on, the next caller gets in (`CrawlLocks.LostSessionLetsOthersIn`), and this is the only way for two
  callers to be inside (`CrawlLocks.MutualExclusion`).
- A revision is to show what changed. It does exactly when the row's hash is that of the fields it
  stores (`CollectorTheorems.ChangedHashShowsInFields`), as every open row's is
  (`History.RevisionsFormHashChain`). A body that retention has blanked breaks this
  (`HistoryExamples.BlankedRowChangesHashAlone`). And the hash looks at the first 2000 characters of
  a description only: a change behind them is stored and told by no revision, so that revisions lead
  back to earlier descriptions only up to there (`AuditTrail.RevisionsTellEveryChange`).

## Model

| member | source | states |
|---|---|---|
| Normalizer.NormalizeText | app/services/normalizer.py:19-26 | the tag loop terminates and computes the normalised text: no leading tag is left before the edges are stripped |
| Normalizer.LeadingTagEnd | app/services/normalizer.py:15 | a tag match takes at least its two brackets, so every turn of the loop shortens the text |
| Normalizer.StripTags | app/services/normalizer.py:23-25 | what is left starts with no tag |
| NormalizerTheorems.LeadingTagsAreStripped | app/services/normalizer.py:15-26 | any sequence of well-formed tags in front of a title disappears |
| NormalizerTheorems.OnlyTagsAreStripped | app/services/normalizer.py:23-25 | and nothing else does: whatever is taken off any text is a sequence of well-formed tags and whitespace |
| NormalizedText.SqueezeJoinsWords | app/services/normalizer.py:22 | whitespace handling leaves the words of the text, in order, with one blank between them |
| NormalizedText.NormalizedMeaning | app/services/normalizer.py:19-26 | a normalised text is the case-folded stretch between the marks at the edges of those words |
| NormalizerTheorems.TaggedTitleNormalizesAlike | app/services/normalizer.py:49-92 | a prefix that normalises to leading tags, full-width brackets included, changes no stored field, identity or content hash, nor whether normalising fails |
| NormalizerTheorems.NormalizedIsClean | app/services/normalizer.py:14-32 | no normalised text holds the separator of the digest input |
| NormalizerTheorems.NormalizeIsCanonical | app/services/normalizer.py:49-92 | every DTO has normalised parts, a non-empty title, and hashes computed from them |
| NormalizerTheorems.NormalizeReadsFields | app/services/normalizer.py:49-92 | every DTO field stems from the raw field of its name, None exactly for empty text; times are brought to UTC; the identity is the external id whenever it leaves any text; both digest inputs written out |
| NormalizerTheorems.NormalizeFailsExactly | app/services/normalizer.py:49-71 | fails exactly when no title is left, or neither an external id nor a readable URL is there |
| NormalizerTheorems.DescriptionIsHashed | app/services/normalizer.py:73-77 | with equal titles and deadlines the content input is equal exactly when the first 2000 normalised characters of the raw descriptions are |
| NormalizerTheorems.FingerprintIsUnambiguous | app/services/normalizer.py:63-71 | fingerprint inputs are equal exactly when source, title, company and URL path are; None differs from every company |
| NormalizerTheorems.ContentHashIsUnambiguous | app/services/normalizer.py:73-77 | content-hash inputs are equal exactly when title, deadline and the first 2000 characters of the description are; None differs from every value |
| NormalizerTheorems.JoinIsUnambiguous | app/services/normalizer.py:44-46 | joined parts determine the parts when only the last may hold the separator |
| NormalizerTheorems.DecimalRoundTrip | app/services/normalizer.py:67 | the printed source id determines the id, and holds no separator |
| KeywordMatcher.EvaluateKeywords | app/services/keyword_matcher.py:86-121 | the loop over the keywords computes the verdict that the theorems below are about |
| KeywordMatcher.SearchFrom | app/services/keyword_matcher.py:140-154 | finds the leftmost position where the term stands, on word edges in word mode, or none when there is none |
| KeywordMatcher.FirstField | app/services/keyword_matcher.py:124-137 | the first target field the keyword is found in, or none when it is found in none |
| KeywordTheorems.EvaluateIgnoresOrder | app/services/keyword_matcher.py:86-121 | verdict and stored evidence are the same for every order of keywords with distinct ids |
| KeywordTheorems.SortedIsInOrder | app/services/keyword_matcher.py:166-168 | evidence is stored by falling score and, among equals, rising keyword id |
| KeywordTheorems.VerdictMeaning | app/services/keyword_matcher.py:43-56 | matched exactly when some active include that is not context-only is found and no active exclude is; kept exactly then, or without active includes |
| KeywordTheorems.EvidenceMeaning | app/services/keyword_matcher.py:86-137 | there is evidence exactly when the term stands in the title or the description, whichever the keyword targets; it carries the keyword's id, kind and weight and names the first such field |
| KeywordTheorems.KeptExactly | app/services/keyword_matcher.py:43-56 | which postings are kept, told from what stands in title and description; the two context words alone keep none |
| KeywordTheorems.EvidenceIsComplete | app/services/keyword_matcher.py:102-121 | every active keyword that is found has its evidence, and all evidence stems from one |
| KeywordTheorems.SnippetMeaning | app/services/keyword_matcher.py:157-163 | the snippet is the leftmost match with thirty characters on either side, marked where it was cut |
| KeywordTheorems.ExcludeNeverCreatesMatch | app/services/keyword_matcher.py:43-56 | one more exclude keyword never makes a posting matched or kept |
| KeywordTheorems.WordMatchIsSubstringMatch | app/services/keyword_matcher.py:140-154 | a word-mode hit implies a substring-mode hit in the same or an earlier target field |
| Collector.ChangedFields | app/services/change_detector.py:14-22 | title, deadline and description are in the result exactly when row and job differ there, with the row's value as old and the job's as new |
| Collector.JobPostingRepository.CloseMissing | app/repositories/models.py:201-229 | every open row of the source not shown gets one miss, the third closes it; the count is that of the rows closed |
| Collector.CountMisses | app/repositories/models.py:210-229 | the row-by-row loop gives that result for every row order |
| Collector.Deduplicator.Upsert | app/services/deduplicator.py:26-35 | new exactly when the identity was free, and the conflict branch always finds its row |
| Collector.CollectorService.MatchAndRecord | app/services/keyword_matcher.py:67-83 | after a flush the evidence is replaced as a whole by that of the active keywords; it fails exactly when there is evidence for a posting that the flush has deleted |
| Collector.CollectorService.CollectOne | app/services/collector.py:57-94 | one job: insert or revise and refresh, match, mark for deletion when rejected, and which counter moves; up to the pending deletion the tables are those of the specification |
| Collector.CollectorService.Collect | app/services/collector.py:40-114 | the whole batch is applied, or after an invalid job, an unknown source or a violated constraint every table is as before |
| CollectorTheorems.JobRowMeaning | app/services/collector.py:63-94 | per identity: absent exactly when filtered, otherwise the job's fields, open, with id and first sighting kept and one revision exactly on a changed hash |
| CollectorTheorems.StoredExactly | app/services/collector.py:63-92 | when a shown job's posting is stored, and with which evidence, told from what stands in its title and description |
| CollectorTheorems.CollectRefinesPerIdentity | app/services/collector.py:52-114 | for distinct identities loop and closing pass give every shown identity its specified row and every other its unseen row; other sources stay as they are |
| CollectorTheorems.UnseenRows | app/repositories/models.py:201-229 | identities outside the batch change only by a miss of their own source's complete collection, for any batch |
| CollectorTheorems.SightAllCounters | app/services/collector.py:71-94 | the counters are the numbers of identities new and kept, and known, changed and kept |
| CollectorTheorems.CollectCounts | app/services/collector.py:71-114 | what each counter of a collection counts, written out; closed are the open postings missed twice before and not shown |
| CollectorTheorems.CollectIgnoresOrder | app/services/collector.py:52-114 | any order of distinct identities gives the same rows, up to the primary keys of new ones, and the same counters |
| CollectTwice.CollectTwiceChangesNothing | app/services/collector.py:56-94 | for every accepted batch, the same batch again is accepted, and gives nothing new and nothing updated exactly when jobs of one identity agree; then no posting comes or goes and no revision is written, also for jobs filtered out each time |
| CollectTwice.DistinctIsConsistent | app/services/collector.py:56-94 | a batch of distinct identities meets that condition under any keywords, and violates no constraint |
| CollectTwice.RepeatedIdentityIsNewAgain | app/services/collector.py:66-77 | a kept and then a rejected job of one identity: the posting is counted new in every run and stored after none |
| CollectorTheorems.CollectSucceedsExactly | app/services/collector.py:52-94 | a collection succeeds exactly when the source is known, every raw job can be normalised, and no job clashes with a pending deletion of its identity |
| CollectorTheorems.ClashesExactly | app/services/collector.py:63-94 | a job clashes exactly when it has evidence and an odd number of filtered jobs of its identity come directly before it |
| CollectorTheorems.ApartNeverClash | app/services/collector.py:71-77 | that last failure needs two neighbours of one identity |
| CollectorTheorems.CollectRow | app/services/collector.py:52-114 | for every batch, identities shown more than once included, loop and closing pass refine a per-identity specification |
| CollectorTheorems.RowAfterLife | app/services/collector.py:71-94 | a stored posting keeps its id and first sighting exactly when no job of it is rejected; any other row has an id drawn by this batch |
| CollectorTheorems.SightAllNotes | app/services/collector.py:73-77 | a notification goes exactly with its evicted posting and otherwise stays as it is |
| CollectorTheorems.TaggedTitlesCollectAlike | app/services/collector.py:52-114 | tags in front of any titles of a batch change no row, revision, counter or failure |
| CollectorTheorems.ChangedHashShowsInFields | app/services/collector.py:79-88 | every changed hash shows in some tracked field exactly when the row's hash is that of its fields |
| QuietHours.QuietEndIsFirstLoudInstant | app/services/dispatcher.py:159-174 | None exactly outside quiet hours, otherwise the first instant after now that is not quiet, less than a day ahead, across midnight too |
| Dispatcher.SendWithRetry | app/services/dispatcher.py:134-145 | stops at the first success or the last attempt; the waits before send k + 1 add up to 2^k - 1 seconds |
| Dispatcher.AttemptsFrom | app/services/dispatcher.py:138-145 | the number of sends is in range, all before it failed, and it succeeded or was the last allowed |
| Dispatcher.NotificationDispatcher.EnqueueChannel | app/services/dispatcher.py:113-132 | one PENDING row for every posting that is news to the channel and for no other, with no key used twice; old rows stay |
| Dispatcher.NotificationDispatcher.ApplyWebPushResult | app/services/dispatcher.py:147-156 | invalid endpoints go inactive, failing ones count every mention and go inactive at five |
| Dispatcher.NotificationDispatcher.SendChannel | app/services/dispatcher.py:88-110 | all rows due on the channel get the outcome of one message and its number of sends |
| Dispatcher.NotificationDispatcher.Dispatch | app/services/dispatcher.py:74-111 | the two passes over the channels compute the tables and the summary that the theorems below are about |
| DispatcherTheorems.DispatchConservesRows | app/services/dispatcher.py:81-111 | outside quiet hours sent + failed = due before + queued now, and no due row is left on a configured channel |
| DispatcherTheorems.CreatedExactly | app/repositories/models.py:138-182 | a row is created exactly for a configured channel and an open posting first seen within the lookback, with evidence of an include keyword and none of an exclude keyword |
| DispatchReplies.DispatchFollowsReplies | app/services/dispatcher.py:88-105 | a due row gets the number of sends up to the first success, and status, time or error by the last reply of its channel's first sender |
| DispatchReplies.SummaryCountsRows | app/services/dispatcher.py:74-111 | queued counts the rows created, sent and failed those that stopped waiting and ended so |
| DispatchReplies.SubscriptionLife | app/services/dispatcher.py:147-156 | over any number of dispatches a subscription stays active exactly when no reply calls it invalid and its failures stay below five |
| DispatcherTheorems.QuietDispatchOnlyQueues | app/services/dispatcher.py:81-86 | inside quiet hours nothing is sent, old rows stay, and new rows wait for an instant that is not quiet, less than a day ahead |
| DispatcherTheorems.DispatchRowLife | app/services/dispatcher.py:88-105 | a row steps from PENDING to SENT or FAILED exactly when due, with 1 to max(retry, 1) sends, and otherwise stays; it is in a successful message exactly when it becomes SENT |
| DispatcherTheorems.DispatchedNewRow | app/services/dispatcher.py:113-132 | a row that first appears belongs to a posting first seen within the lookback |
| DispatcherTheorems.ForcedDispatchWaitsForSchedule | app/repositories/models.py:395-405 | a forced dispatch takes up a waiting row exactly when its scheduled instant has come |
| Retention.RetentionRepository.ClearClosedPostingContent | app/repositories/models.py:333-352 | bodies of rows closed before the cutoff are blanked; rows already blank are not counted |
| Retention.RetentionService.Run | app/services/retention.py:31-50 | the five steps in their order, and what each reports |
| RetentionTheorems.RetainedPosting | app/services/retention.py:31-59 | what a run leaves of one posting: nothing from the second Korean day after the deadline, no body ninety days after closing, no revision of over 180 days, everything else as it was |
| RetentionTheorems.RetainedRunsAndNotes | app/repositories/models.py:369-381 | runs stay for thirty days from their start, notifications with their posting and for ninety days once sent |
| RetentionTheorems.ReportAddsUp | app/services/retention.py:31-50 | before = after + reported, for postings and runs; what the other three counts count |
| RetentionTheorems.DeletedTwoDaysAfterDeadline | app/services/retention.py:53-59 | a posting is deleted exactly when the Korean date is at least two days past that of its deadline |
| RetentionTheorems.DeletionIsMonotone | app/services/retention.py:53-59 | what is deleted at one time is deleted at every later one |
| RetentionTheorems.RetainedNotifications | app/repositories/models.py:354-381 | a notification goes exactly with its posting or ninety days after it was sent |
| RetentionTheorems.KeepsSuffix | app/repositories/models.py:383-388 | revisions in time order lose a prefix and keep a contiguous suffix |
| RetentionTheorems.SecondRunDoesNothing | app/services/retention.py:31-50 | a second run at the same instant changes nothing and reports five zeros |
| History.RevisionsFormHashChain | app/services/collector.py:79-88 | in every history each revision changes the hash and starts where the one before ended, the last one at the row's hash; an open row's hash is that of its fields |
| History.RowsStepAlone | app/repositories/models.py:184-229 | every event acts on each identity's row by itself |
| History.RowLife | app/services/collector.py:73-94 | a stored posting lives on under its id exactly when the event neither rejects a job of it nor finds it two Korean days past its deadline |
| History.NotesFollowPostings | app/repositories/models.py:354-381 | apart from dispatches a notification goes only with its deleted posting, or by age |
| History.ReachableTables | app/repositories/models.py:184-229 | in every history rows are closed exactly at three misses with closed_at set, ids are unique, notifications have owners and consistent states |
| History.BlankedBodyComesBack | app/services/collector.py:79-89 | an identical sighting restores a body that retention blanked and writes no revision |
| History.EvidenceGoesWithKeyword | app/models/entities.py:231-233 | deleting keywords deletes exactly their evidence |
| AuditTrail.RevisionsTellEveryChange | app/services/collector.py:79-89 | in every history, walking back through a posting's revisions from what it stores, each new value is the one found there: title and deadline exactly, the description up to what is hashed and was blanked |
| HistoryTheorems.ThreeMissesClose | app/services/collector.py:56-105 | in every history the counter is min(3, complete collections of the source since the posting was last shown), and closed means three, as of the third; partial sightings reopen, failed collections do nothing |
| HistoryTheorems.DispatchTakesUpExactly | app/repositories/models.py:138-182 | in every history a dispatch takes up a posting exactly when fewer than three complete collections have missed it since it was shown, it is recent enough, and its evidence asks for it |
| HistoryTheorems.AtMostOneAnnouncement | app/services/dispatcher.py:74-132 | over every history with lookback of at most ninety days, overlapping collections included, each row is in at most one successful message per channel, though retention forgets old ones |
| HistoryTheorems.AtMostOneAnnouncementPerLife | app/services/dispatcher.py:74-132 | successful messages about a listing on a channel are at most one more than the deletions of its posting |
| HistoryTheorems.SparedListingIsAnnouncedOnce | app/services/dispatcher.py:74-132 | a listing that is never rejected and never two days past its deadline is announced on a channel at most once |
| HistoryExamples.LongLookbackAnnouncesTwice | app/repositories/models.py:138-182 | for every lookback over ninety days a history in which one row is in two successful messages |
| HistoryExamples.FilteredListingIsAnnouncedTwice | app/services/collector.py:90-92 | a history in which a listing that was rejected once is announced twice |
| HistoryExamples.ExpiredListingIsAnnouncedTwice | app/services/retention.py:53-59 | a history in which a listing still shown two days after its deadline is announced twice |
| HistoryExamples.BlankedRowChangesHashAlone | app/repositories/models.py:333-352 | a history in which a blanked posting gets a revision that shows no changed field |
| HistoryExamples.SampleIsListing | app/services/normalizer.py:49-92 | concrete data for those histories: a listing that is kept and wanted, and one of its identity that is rejected |
| CrawlRunner.LatestSuccess | app/repositories/models.py:299-306 | a success of the source that no other success of it follows by start and id |
| CrawlRunner.CrawlExecutionService.FinishRun | app/services/crawl_runner.py:168-232 | postings, run row and source counters all change, or only ids of the sequence are lost |
| CrawlRunner.CrawlExecutionService.CrawlLocked | app/services/crawl_runner.py:87-110 | for every crawl and every fault: what is returned, what the database then holds, whether an alert went out |
| CrawlRunner.CrawlExecutionService.RunSource | app/services/crawl_runner.py:73-119 | for every pattern of faults: what is returned, what the database then holds, whether an alert went out; the connection ends in the pool without a lock or is thrown away, unless the lock statement raised after taking the lock; no other session's lock moves |
| CrawlRunner.PartialMeansShort | app/services/crawl_health.py:87-91 | a crawl is partial exactly when it says so, or at most the share 1 - ratio of a positive baseline is left |
| CrawlRunner.RunningIsNotBaseline | app/services/crawl_runner.py:188-193 | the run's own RUNNING row never serves as its baseline |
| CrawlLocks.MutualExclusion | app/services/crawl_runner.py:81-119 | in every interleaving with faults, crashes and ended sessions two callers inside, for one source or for two whose lock names collide, mean that one has lost its session |
| CrawlLocks.PoolIsCleanExactly | app/services/crawl_runner.py:111-119 | an idle pooled connection holds a lock exactly when a raising lock statement took it there |
| CrawlLocks.LocksHaveOwners | app/services/crawl_runner.py:111-119 | every held lock belongs to a caller inside, to a session the server is about to end, or to a raising lock statement |
| CrawlLocks.RaisedLockBlocksTheSource | app/services/crawl_runner.py:81-119 | a run in which the pool holds a lock, nobody is inside, and the next caller is refused |
| CrawlLocks.LostSessionLetsOthersIn | app/core/locks.py:10-11 | a run in which the server ends a working caller's session and the next caller gets in |
| CrawlRuns.RunRowsMoveForward | app/services/crawl_runner.py:145-266 | one step of anybody leaves a run row, deletes it by age, or takes it from RUNNING to the terminal status that is logged |
| CrawlRuns.TerminalIsFinal | app/services/crawl_runner.py:145-266 | a finished row never changes again until retention deletes it, and its id is not reused |
| CrawlRuns.RunsEndOnce | app/services/crawl_runner.py:95-110 | every run ends at most once and its row says how |
| Drafts.DraftsIgnoreOlder | app/repositories/models.py:383-388 | what a transaction has written about a row does not depend on older revisions, which retention may delete meanwhile |
| Drafts.MergedIsSerial | app/services/collector.py:52-114 | committing the rows a transaction wrote gives the tables of its whole collection, run at the moment of the commit |
| CrawlSerial.OthersKeepWork | app/services/crawl_runner.py:179-230 | a commit of one source leaves every other open transaction as it would be had it read the new rows all along |
| CrawlSerial.RetentionCarriesDraft | app/repositories/models.py:333-388 | so does a retention run that waits for locked rows |
| CrawlSerial.CommittedLogReplays | app/services/crawl_runner.py:73-119 | collecting transactions that interleave job by job with each other and with dispatches, retention and edits leave the tables of the committed ones run whole, in commit order |
| CrawlSerial.ThreeMissesCloseConcurrently | app/services/collector.py:96-105 | the rule of three misses, for concurrent callers that crash and fail |
| CrawlSerial.HistoriesStayGood | app/services/dispatcher.py:74-132 | the table invariants, one announcement per row and one per life of a listing, for concurrent callers whose transactions overlap |
| CrawlBreaker.CounterMeaning | app/services/crawl_runner.py:226-262 | the stored counter is the number of FAILED runs since the last SUCCESS; an alert went out exactly at the threshold |
| CrawlBreaker.NothingStartsAfterTheTrip | app/services/crawl_runner.py:75-92 | after the trip the source is inactive and no run of it begins or ends until it is switched on again, stale readers included |
| CrawlBreaker.OverTheThresholdExactly | app/services/crawl_runner.py:255-262 | an active source, or one that is being crawled, is at or over the threshold exactly when it was switched on there and has not succeeded since; an open breaker's counter is the threshold |
| CrawlBreaker.AtMostOneAlertPerStreak | app/services/crawl_runner.py:255-262 | between two alerts about a source there is a success |
| CrawlBreaker.ReactivatedSourceNeverTrips | app/services/crawl_runner.py:256 | switched on at or over the threshold, a source stays active over every further run of the protocol until a success |
| DropBaseline.BaselineIsQueried | app/repositories/models.py:299-306 | the query finds the last success in the log unless retention deleted it |
| DropRule.CommittedIsPartialExactly | app/services/crawl_runner.py:188-200 | in every interleaving a committed run is PARTIAL exactly when its crawl was partial, or n < b and n <= b (1 - r) for its n items and a positive baseline b of some moment of the run; its row says which |
| DropBaseline.NoDropKeepsShare | app/services/crawl_health.py:87-91 | a count that is no drop from a positive one keeps the share 1 - r, strictly for r > 0, and is positive |
| DropBaseline.CountsFallGeometricallyAtMost | app/services/crawl_health.py:87-91 | while the baseline row is kept the n-th success after any count c > 0 has at least c (1 - r)^n items, more for r > 0, and at least one |
| DropBaseline.PurgeKeepsBase | app/repositories/models.py:369-372 | retention deletes runs by their start, so a source's newest success goes last and an older one never serves instead |
| DropBaseline.EmptyCrawlClosesNothing | app/services/collector.py:96-105 | an empty crawl against a positive baseline ends PARTIAL and leaves every posting as it was |
| RateLimit.HttpClient.WaitForRateLimit | app/crawlers/http.py:139-147 | requests are let through at least one interval apart, it sleeps for exactly what was missing, and no sixty seconds hold more than the configured number |
| RateLimit.HttpClient.ReadWithLimit | app/crawlers/http.py:149-159 | the whole body, every chunk at its place, or a refusal exactly when it is over the limit |
| RateLimit.AtMostRatePerMinute | app/crawlers/http.py:59-61 | any half-open window of sixty seconds holds at most the configured number of requests |

## Left out

- Web pages, API routes, login, admin lists, dashboards, the command line, deployment and migrations: no state rule beyond those modelled.
- Site parsers: a crawl result is any list of raw jobs with or without the partial flag. Fetch and parse exceptions arrive as that flag (app/crawlers/base.py:95-112).
- NFKC, case folding, URL parsing, ISO formatting, SHA-256, `\w`, `IGNORECASE` and regular-expression mode are functions of `Platform` without further properties, except where a lemma names what it needs: `NormalizerTheorems.Sane`, and for tags that NFKC does not compose across the end of the prefix.
- Hash collisions: digest results are about the digest input, not about SHA-256; `AuditTrail` takes SHA-256 to have none.
- Encoding errors of `str.encode`, column lengths and other constraint failures of the database, which fail the transaction like any other fault.
- A posting is keyed by its identity, which holds an external id or a fingerprint and never both.
- A second `session.delete` of a posting that a flush has already deleted is taken to do nothing.
- Rows are read in any order: `order_by` of candidates and due rows, notification ids, and the text and order of items in a digest.
- Time zones of changing offset: quiet hours use a fixed one, and Korea's is +9h.
- CrawlProtocol: one job of a collection, one dispatch and one retention run take effect in one step each. Retention waits for rows that an open transaction has written. Commits whose answer is lost are not in the protocol, and sources are not created or deleted while it runs.
- CrawlProtocol: keywords are not edited while a collecting transaction is open; such an edit applies from the next job on, so that the batch is then no serial one.
- CrawlSerial.CommittedLogReplays: for runs in which no working caller's session was ended, as are the results on the breaker and the baseline; after such a loss two callers can work on one source.
- Two dispatches at once, and a crash between a send and its commit: due rows are read without a lock, so dispatches run one at a time. SENDING is never set.
- Delivery by Kakao and Web Push: a channel is an arbitrary sequence of replies. Tokens, keys and encryption are not modelled.
- Texts and delivery of operational alerts, error classification, run durations, HTTP summaries, and the public source configuration written back by a run.
- Ratios and intervals are real numbers without rounding.
- HTTP retries, redirects, conditional requests and the declared-length shortcut.
