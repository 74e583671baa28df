# Verification models of the bot platform

Dafny models of the components of the platform that carry algorithms or protocols, with proofs of
what they keep. `dafny verify dfyconfig.toml` checks everything.

| file | component |
|---|---|
| `RankingMetrics.dfy`, `BenchmarkSummary.dfy`, `PackBuilder.dfy` | retrieval metrics, percentiles and aggregation, and the document selection of the recall benchmark |
| `EventStream.dfy`, `RunLog.dfy` | the resumable event stream of an agent run, read while its writer goes on; what is written after the run has ended |
| `MediaCrypto.dfy`, `TypingTickets.dfy` | iLink image encryption and key forms; the typing ticket cache with back-off |
| `ApprovalTimers.dfy`, `Confirmations.dfy` | approval timers shared by threads; two-step confirmations of destructive commands |
| `OcrProcess.dfy` | the OCR worker process and its owner |
| `ConnectionPool.dfy`, `PoolReplacement.dfy`, `DataSourceRuntime.dfy` | connection pools; their replacement by a reload while operations go on; schema cache, column lists and failure cooldown |
| `ContentOwnership.dfy`, `OrganizationAgents.dfy` | the ownership table and its subtree rename; enabled agents and the default |
| `GitCredentials.dfy` | git tokens of tenants in one flat file |
| `Collections.dfy`, `Corpus.dfy`, `Ordering.dfy`, `Text.dfy`, `Wrappers.dfy` | shared facts and types: sequences and sets, documents, sorting of numbers, alphabets and trimming of text, options and results |

Code that changes state is a class whose methods are proved against a specification function on
values; the theorems are about that function, over all runs. Protocols between threads or processes
are state machines: a run is any list of atomic steps, a step that is not possible changes nothing,
and a theorem about all lists holds in every interleaving. What the clock, the network, the database
or a random generator answers is a parameter.

Where the code falls short of what it is for, the exact condition is proved: documents with negative
relevance (`IdealIsMaximalIff`), a benchmark named `combined` (`QueriesAddUpIff`), positives that
equal the cap (`PackExceedsCapIff`), white space in a hex key (`ParsedKeyHas16BytesIff`), an image of
exactly 20 MiB (`SentImageIsReceivedIff`), a notification, a late cancellation or a child's report
written after the stream has closed (`ClosedStreamIsWholeIff`), failed rollbacks
(`LentConnectionIsReset`), pings that open a transaction (`LentWithTransactionIff`), operations that
stand between fetching a pool and returning to it at a reload (`NothingComesBackIff`), authorised
tables without a schema (`OwnEntryIsFoundIff`, `OwnListHoldsIff`), keys with wildcards, letters or
trailing slashes (`SelectionIsSubtreeIff`), tenant ids with a colon (`CollidingTenantsExtend`,
`ExtendingTenantsCollide`, `LookupsAreIsolatedIff`, `ListingIsIsolatedIff`), blanks around the id of
an agent to disable (`StatusKeepsSoundIff`), and deletion requests in organization channels
(`OrganizationRequestCancelsIff`).

Code and comments disagree in three places, and the models follow the code: `idle_seconds` of a
pooled connection is its age since it was made (src/core/datasource/pool.py:29-31); the rollback on
return does not keep every connection from being lent with a transaction open
(src/core/datasource/pool.py:69-72), since it may fail and since PostgreSQL's ping opens one; and the
tenant isolation promised for git tokens (src/core/config/git_credentials.py:3-4) depends on the form
of tenant ids.

Assumptions the models make about code they do not contain: event ids of a run increase and its log
is only appended to (`events` returns at most 500, src/core/storage/agent_runs.py:204-211); a worker
keeps the lease of the run it advances; no step of a run is reconciled while the run ends, since
`reconcile` tests for `paused` outside its transaction and would requeue the ended run
(src/core/storage/agent_runs.py:419-436); `expire_approval` tests and clears a pending approval in
one step (src/core/services/agent.py:1020-1043); request ids of the OCR process and approval ids are
never used twice; stored agent payloads can be read back; clocks do not go back.

## Model

| member | source | states |
|---|---|---|
| RankingMetrics.DominatedMassGivesSmallerDcg | scripts/knowledge_recall_benchmark.py:486-490 | The summation-by-parts core of the rearrangement inequality: a list whose gains add up to no more than another's at every prefix has no larger DCG, by at least the final difference in gains times the last discount; equal DCG forces equal prefix sums |
| RankingMetrics.JudgedGradesAreDrawnOnce | scripts/knowledge_recall_benchmark.py:494-511 | The grades of the judged documents in a duplicate-free list are a sub-multiset of all grades: each document pays out once |
| RankingMetrics.DedupKeepsFirsts | scripts/knowledge_recall_benchmark.py:494 | Removing duplicates keeps exactly the documents of the list, each once, in the order of their first appearance |
| RankingMetrics.NoRankingBeatsIdeal | scripts/knowledge_recall_benchmark.py:486-513 | For every retrieved list, duplicates allowed, the DCG of its first k distinct documents is at most that of the k best grades, as long as none of those k grades is negative |
| RankingMetrics.IdealIsMaximalIff | scripts/knowledge_recall_benchmark.py:486-513 | The descending list is the best possible one if and only if no grade among its first k is negative |
| RankingMetrics.BetterThanIdeal | scripts/knowledge_recall_benchmark.py:511-513 | Where one of the first k grades is negative, a ranking that beats the ideal list is exhibited |
| RankingMetrics.NdcgInUnitInterval | scripts/knowledge_recall_benchmark.py:510-513 | With non-negative grades nDCG@k is between 0 and 1 for every retrieved list |
| RankingMetrics.NdcgIsOneIff | scripts/knowledge_recall_benchmark.py:510-513 | nDCG@k is 1 if and only if the first k distinct documents show the descending grades position by position |
| RankingMetrics.RankingShowingIdeal | scripts/knowledge_recall_benchmark.py:510-513 | A ranking that shows the k best grades in order exists for every set of judgements |
| RankingMetrics.MetricsAt | scripts/knowledge_recall_benchmark.py:502-513 | The loop body computes all five metrics of one cutoff, from the first rank and the deduplicated list found once before the loop |
| RankingMetrics.QueryMetrics | scripts/knowledge_recall_benchmark.py:493-514 | The returned dictionary has exactly one entry for each of the five metrics at each cutoff, with its defined value |
| RankingMetrics.ReciprocalRankIs | scripts/knowledge_recall_benchmark.py:497-509 | The reciprocal rank is one over the rank of the first judged document of the deduplicated list if that is within k, and 0 if no judged document is |
| RankingMetrics.ValuesOfMetrics | scripts/knowledge_recall_benchmark.py:502-513 | Hit rate, precision times k and recall times the number of judged documents in terms of the judged documents among the first k distinct ones; nDCG is 0 where the ideal gain is 0 |
| RankingMetrics.DcgOfMore | scripts/knowledge_recall_benchmark.py:486-490 | Each document adds its gain discounted by its own rank |
| RankingMetrics.PrecisionAndRecallCountTheSame | scripts/knowledge_recall_benchmark.py:503-506 | k times precision and (number of relevant documents) times recall are the same count of relevant documents found |
| RankingMetrics.HitIsOneEvent | scripts/knowledge_recall_benchmark.py:497-509 | Recall, precision and reciprocal rank at k lie between 0 and the hit rate, and are positive exactly when the hit rate is 1 |
| RankingMetrics.FirstRankDecidesHit | scripts/knowledge_recall_benchmark.py:497-504 | The first relevant rank is within k exactly when a relevant document is among the first k |
| RankingMetrics.FullRecallIff | scripts/knowledge_recall_benchmark.py:503-505 | Recall is 1 exactly when every relevant document is among the first k (and there is one) |
| RankingMetrics.MetricsGrowWithCutoff | scripts/knowledge_recall_benchmark.py:501-509 | Hit rate, recall and reciprocal rank never fall when the cutoff grows |
| BenchmarkSummary.PercentileBracketed | scripts/knowledge_recall_benchmark.py:517-526 | The percentile lies between its two neighbouring order statistics |
| BenchmarkSummary.PercentileExtremes | scripts/knowledge_recall_benchmark.py:517-526 | It is the minimum at 0 and the maximum at 1 |
| BenchmarkSummary.PercentileMonotone | scripts/knowledge_recall_benchmark.py:517-526 | It never decreases in p, across all breakpoints of the interpolation |
| BenchmarkSummary.PercentileOrderFree | scripts/knowledge_recall_benchmark.py:520-526 | It depends on the multiset of values only, not on their order |
| BenchmarkSummary.PercentileIsLinear | scripts/knowledge_recall_benchmark.py:520-526 | Between two neighbouring order statistics the percentile is the straight line from one to the other, which it meets at both ends |
| BenchmarkSummary.PercentileOfFew | scripts/knowledge_recall_benchmark.py:517-526 | Every percentile of a single value is that value, and of none 0 |
| BenchmarkSummary.GroupRows | scripts/knowledge_recall_benchmark.py:530-532 | There is one group for each benchmark that occurs, holding exactly its rows in their order |
| BenchmarkSummary.Aggregate | scripts/knowledge_recall_benchmark.py:529-559 | The result has a summary for each benchmark and for `combined`, each computed from exactly its own rows: its two latency figures are the 0.5 and the 0.95 percentile of their latencies, its empty rate the share of rows without results |
| BenchmarkSummary.GroupsPartitionRows | scripts/knowledge_recall_benchmark.py:530-533 | Any additive figure summed benchmark by benchmark gives its sum over all rows: the groups partition the rows |
| BenchmarkSummary.ReadingIsSum | scripts/knowledge_recall_benchmark.py:542-557 | A mean times its count, and a count, recover the plain sum over the group's rows |
| BenchmarkSummary.GroupFiguresAddUp | scripts/knowledge_recall_benchmark.py:533-558 | Counts add up, and means add up weighted by their counts, to the combined figure; rows of a benchmark named `combined` are exactly what is missing |
| BenchmarkSummary.QueriesAddUpIff | scripts/knowledge_recall_benchmark.py:531-543 | The reported query counts add up to the combined one if and only if no benchmark is named `combined` |
| PackBuilder.BuildPack | scripts/knowledge_recall_benchmark.py:347-393 | Refuses too few queries, judged documents outside the corpus and too many positives, in that order; otherwise returns the documents of the specified selection, the documents judged for the queries taken as positives, and the first queries in their order, the first ones of them, as many as asked for, for tuning |
| PackBuilder.AddHardNegatives | scripts/knowledge_recall_benchmark.py:380-388 | The nested loops with their two breaks add the rank-by-rank list of candidates until the cap is reached |
| PackBuilder.RoundsHold | scripts/knowledge_recall_benchmark.py:380-384 | The candidates looked at are exactly those at ranks below 80 of the queries' candidate lists |
| PackBuilder.AddUntilFills | scripts/knowledge_recall_benchmark.py:384-393 | Adding until the cap starts below it ends with exactly min(cap, everything available) documents |
| PackBuilder.PackIsExactlyFull | scripts/knowledge_recall_benchmark.py:375-393 | With fewer positives than the cap the document set has exactly min(cap, corpus size) documents and contains every positive |
| PackBuilder.PackExceedsCapIff | scripts/knowledge_recall_benchmark.py:379-388 | The document set exceeds the cap if and only if the positives already equal it and the first candidate is none of them; it then has one document too many |
| PackBuilder.SelectedIsConsidered | scripts/knowledge_recall_benchmark.py:380-393 | The selection is what was there plus the candidates considered, and nothing else |
| PackBuilder.ConsideredIsShortest | scripts/knowledge_recall_benchmark.py:384-388 | No candidate is considered after the cap is reached |
| PackBuilder.RoundRobinIsFair | scripts/knowledge_recall_benchmark.py:379-388 | Once any candidate of some rank is considered, every query's candidates of all lower ranks are in the document set |
| PackBuilder.AcceptedPack | scripts/knowledge_recall_benchmark.py:361-393 | In all accepted cases the document set lies between positives and corpus, and has min(cap, corpus size) documents, or at most cap + 1 when the positives equal the cap |
| EventStream.Generate | src/api/routers/agent_runs.py:156-182 | In every interleaving with the writer: what was yielded is at all times the log entries after the start up to the cursor, in order, without gap or repeat; a stream that closes saw a terminal or waiting status, then an empty probe, has delivered all that was in the log at that probe, and a run that is over was published. A client that stays on is served: once log and status have settled on a status that closes, the stream closes, with a waiting status as its last chunk and the whole log before it; once the log alone has settled, all of it is delivered; and a keep-alive comes only when more than ten seconds have passed since the last, and never stays due while the reader goes on |
| EventStream.YieldBatch | src/api/routers/agent_runs.py:162-165 | Yielding a batch, cut off anywhere by the subscriber, keeps delivered events and cursor in step |
| EventStream.BatchIsNextStretch | src/api/routers/agent_runs.py:162-172 | A batch read from any earlier state of the log is the next stretch of the final log, and is empty only if nothing newer was there |
| EventStream.InStepMeans | src/api/routers/agent_runs.py:162-165 | Delivered events and cursor determine each other with respect to the final log |
| EventStream.ClosedIsComplete | src/api/routers/agent_runs.py:166-178 | A closed stream delivered at least everything logged when the final status was read and a first part of the final log after the resume point; what it misses is exactly what is written, and newer than that point, after its last probe |
| EventStream.ResumeCursor | src/api/routers/agent_runs.py:229-235 | A reconnecting client starts from the larger of the two positions; a header that is no number is refused |
| RunLog.LogOnlyGrows | src/core/storage/agent_runs.py:193-202 | Whatever happens to a run that has ended, its log only grows at the end, by ids larger than all before, and its status stays |
| RunLog.NothingMissedIff | src/api/routers/agent_runs.py:166-178 | A stream that had everything when it closed still has everything later if and only if the log was not written to since |
| RunLog.ClosedStreamIsWholeIfOnlyPublished | src/core/services/agent_runs.py:482-528 | A stream closed on a terminal status has delivered the whole log if the run is only published from then on; and then it is published |
| RunLog.ClosedStreamIsWholeIff | src/core/services/agent_runs.py:413-418 | Whatever the service goes on to do by itself, a stream closed on a terminal status has delivered the whole log, from any resume point, if and only if at that moment no cancellation decided on before the end is on its way, no child is at work, and no notification is wanted, in a worker's hands or not |
| RunLog.NotificationIsMissed | src/core/services/agent_runs.py:537-567 | A notification that is wanted is written after the stream has closed, and is not delivered |
| RunLog.ChildReportIsMissed | src/core/services/agent_runs.py:413-418 | What a child still at work reports goes to the log of its ended parent, and is not delivered, whatever the notifications |
| RunLog.NotificationIsQueuedTwice | src/core/services/agent_runs.py:542-567 | Two workers that test before either writes queue the notification of one status twice |
| RunLog.WantedIff | src/core/services/agent_runs.py:537-544 | A notification is wanted of a run that is no child, while notifications are on and none of its version is in the log |
| RunLog.QueuedIsRecorded | src/core/services/agent_runs.py:542-567 | What has been queued is recorded, and not wanted again |
| RunLog.ServiceCanSettle | src/core/services/agent_runs.py:317-337 | From every state the service can, by steps of its own, come to where it has nothing left to write |
| RunLog.CancellationIsMissed | src/core/storage/agent_runs.py:311-345 | A cancellation of a run that has ended always writes to its log, one entry or, for a cancelled run that is no child, three; a closed stream misses them |
| RunLog.ClosedStreamInWorld | src/api/routers/agent_runs.py:166-178 | The same condition for the world as the reader finds it: the stream whose last probe is the last access stays whole, in every continuation by the service, if and only if the run is settled then |
| EventStream.ReconnectingClient | src/api/routers/agent_runs.py:156-235 | Reading, disconnecting anywhere and reconnecting with the last id seen (or, after no event, with the old starting point) yields one uninterrupted stretch of the log |
| EventStream.EarlierStretchIsStable | src/api/routers/agent_runs.py:162-165 | What was delivered from an earlier log is the same stretch of every later one |
| MediaCrypto.HexRoundTrip | src/core/integrations/ilink.py:122-135 | Hex text decodes to the bytes it was written from |
| MediaCrypto.HexIgnoresCase | src/core/integrations/ilink.py:122-135 | The case of hexadecimal digits does not matter |
| MediaCrypto.HexCharactersAre | src/core/integrations/ilink.py:120-135 | The sixteen digits in either case are read, ASCII white space is skipped, all else is refused |
| MediaCrypto.HexLength | src/core/integrations/ilink.py:120-122 | A hex decoding has (length minus skipped white space) / 2 bytes |
| MediaCrypto.AlphabetIs | src/core/integrations/ilink.py:127 | The alphabet is that of section 4 of RFC 4648, and no other character is read |
| MediaCrypto.Base64RoundTrip | src/core/integrations/ilink.py:127 | Base64 of section 4 of RFC 4648 decodes to the bytes it encodes, with the padded length |
| MediaCrypto.EveryKeyFormIsRead | src/core/integrations/ilink.py:116-138 | Every 16-byte key is returned from its hex, its base64 and the base64 of its hex, with any white space around |
| MediaCrypto.KeyFieldIsRead | src/core/integrations/ilink.py:592-594 | The field `send_image` writes has 44 ASCII characters and leads back to the key through base64 and then hex |
| MediaCrypto.ParsedKeyHas16BytesIff | src/core/integrations/ilink.py:120-138 | An accepted key has at most 16 bytes, and 16 if and only if its hex form contains no white space |
| MediaCrypto.ShortKeyIsAccepted | src/core/integrations/ilink.py:120-122 | White space inside 32 hex characters is skipped, so keys shorter than 16 bytes are accepted |
| MediaCrypto.UnpadPad | src/core/integrations/ilink.py:147-169 | Padding of section 6.3 of RFC 5652 is undone exactly, and always lengthens to a full block |
| MediaCrypto.PadUnpad | src/core/integrations/ilink.py:147 | Only padded texts are accepted: what unpads is the padding of its result |
| MediaCrypto.DecryptEncrypt | src/core/integrations/ilink.py:146-169 | Block by block, decryption undoes encryption under any block permutation |
| MediaCrypto.EncryptDecrypt | src/core/integrations/ilink.py:146-169 | And encryption undoes decryption |
| MediaCrypto.DecryptsExactlyWhatWasEncrypted | src/core/integrations/ilink.py:141-169 | A text decrypts under a key text to a plaintext if and only if it is what encryption makes of that plaintext under the parsed key: every other input is refused |
| MediaCrypto.EncryptedLength | src/core/integrations/ilink.py:515-527 | The encrypted size is the next multiple of 16 above the plain size, so it passes the 20 MiB guard only for plain sizes below it |
| MediaCrypto.SentImageIsReceivedIff | src/core/integrations/ilink.py:515-650 | Every image `send_image` accepts is returned by `download_image` unless it has exactly 20 MiB, which is sent but refused on receipt |
| TypingTickets.ILinkClient.GetTypingTicket | src/core/integrations/ilink.py:362-406 | Cache, deadline, request and the three kinds of answer change ticket and retry tables, and return or raise, as specified |
| TypingTickets.StoredRetryFollowsRow | src/core/integrations/ilink.py:369-405 | After n failures in a row, counted from the history of answers alone, the deadline is the last failure plus min(2^n, 3600) seconds and the stored next delay is in [4, 3600] |
| TypingTickets.NoRequestBeforeDeadline | src/core/integrations/ilink.py:368-370 | A request is sent only when the last failure's whole delay has passed |
| TypingTickets.RowSpansItsDelays | src/core/integrations/ilink.py:383-390 | The failures of a row span at least the sum of the delays between them |
| TypingTickets.RequestsAreSpreadOut | src/core/integrations/ilink.py:362-406 | The request after n failures in a row comes at least the sum of their delays after the first; that is 2^(n+1) - 2 seconds for n up to 11 |
| TypingTickets.SumOfDelaysIsGeometric | src/core/integrations/ilink.py:39-40 | The sum of the first n delays in closed form, while none is capped |
| TypingTickets.DelayIsCappedIff | src/core/integrations/ilink.py:40 | A delay is cut to one hour exactly from the twelfth on |
| TypingTickets.CacheHoldsReceivedTickets | src/core/integrations/ilink.py:395-399 | A cached ticket was received for that very user, and expires a day after its request |
| TypingTickets.CachedTicketIsRecent | src/core/integrations/ilink.py:365-367 | A ticket returned without a request was received for that user less than a day before |
| TypingTickets.ReceivedTicketIsReused | src/core/integrations/ilink.py:365-399 | For a day after a ticket was received it is handed out without a request, whatever calls come in between |
| TypingTickets.RequestIsAnswered | src/core/integrations/ilink.py:371-406 | A request is answered with the ticket, the expired session or the error the server gave |
| TypingTickets.RequestsIff | src/core/integrations/ilink.py:365-370 | Without a live ticket a request is made if and only if the delay after the last failure in a row has passed; else the answer is empty |
| ApprovalTimers.TimersAreSound | src/core/application/bot.py:315-390 | Over all interleavings of schedule, replace, cancel, fire, re-arm and clean up: entries name their own timers, a tracked timer is neither cancelled nor about to be, a replaced timer and the call that must cancel it know each other |
| ApprovalTimers.LiveTimerIsTrackedOrOwed | src/core/application/bot.py:315-390 | Every started timer that can still fire is the tracked one of its subject or has a cancel owed by a running call |
| ApprovalTimers.QuiescentTimersAreTheTrackedOnes | src/core/application/bot.py:315-390 | When no call is running, a timer is live if and only if it is tracked: no entry is left behind and no timer is forgotten |
| ApprovalTimers.AtMostOneLiveTimer | src/core/application/bot.py:382-390 | Then each subject has at most one live timer |
| ApprovalTimers.NoticesAreTimely | src/core/application/bot.py:335-370 | Over all interleavings: an approval is claimed by one callback only, after it expired, and is announced only by the one that claimed it |
| ApprovalTimers.AtMostOneNotice | src/core/application/bot.py:335-370 | Each approval gets at most one timeout notice, and none before its expiry |
| ApprovalTimers.ClaimsAreAnnounced | src/core/application/bot.py:340-370 | Over all interleavings the approvals claimed are exactly those announced and those whose claiming callback is about to, in sets and in number: no claim is lost |
| ApprovalTimers.WithdrawnIsNotAnnounced | src/core/application/bot.py:335-370 | In every run an approval that is answered, or displaced by a new one of its subject, before it was claimed is never announced, whatever timers are still about |
| ApprovalTimers.ExpiryIsAnnounced | src/core/application/bot.py:333-370 | From every reachable state a live timer of a pending, expired approval can fire and run to exactly one more notice, of that approval |
| ApprovalTimers.SchedulingStartsTimer | src/core/application/bot.py:382-390 | From every reachable state a scheduling call can run to its end: its timer is live and tracked, and the one tracked before is cancelled |
| ApprovalTimers.EarlyTimerSchedulesAnother | src/core/application/bot.py:335-340 | A timer that fires too early can put a live, tracked one for the same approval in its place |
| ApprovalTimers.UnansweredApprovalIsAnnounced | src/core/application/bot.py:322-390 | From every reachable state an approval that is issued, scheduled and left alone is announced once, when it expires |
| ApprovalTimers.CallbackCanFinish | src/core/application/bot.py:335-381 | No callback gets stuck: one that has started can always run to its end, in at most six steps of its own and of the scheduling call it makes |
| ApprovalTimers.PoppedTimerIsCancelled | src/core/application/bot.py:315-320 | Whoever pops an entry can cancel its timer |
| ApprovalTimers.CancelledStaysCancelled | src/core/application/bot.py:315-320 | A cancelled timer stays so, and one that had not fired never does |
| Confirmations.MessageBot.ClearMemory | src/core/application/bot.py:875-889 | Issues a code, or uses up the pending one and says whether it was right and in time |
| Confirmations.MessageBot.DeleteData | src/core/application/bot.py:943-961 | Issues a deletion code under the private key; in an organization channel drops the one under the tenant id instead |
| Confirmations.MessageBot.ConfirmDeletion | src/core/application/bot.py:966-991 | The branches of the confirmation in their order, and what each does to both tables |
| Confirmations.TablesFollowTheLog | src/core/application/bot.py:875-991 | The two tables hold exactly the codes that are outstanding according to the visible conversation, with the time they were given |
| Confirmations.ClearRunsIff | src/core/application/bot.py:881-889 | `/memory clear` runs if and only if the code is the outstanding one and not five minutes old; afterwards none is outstanding: any other attempt burns it |
| Confirmations.DeletionRunsIff | src/core/application/bot.py:974-991 | `/confirm-delete` runs if and only if it has two words and the second is the outstanding code, in time; a timely wrong code leaves it usable, anything else cancels it |
| Confirmations.OrganizationRequestCancelsIff | src/core/application/bot.py:944-949 | In an organization channel `/delete-data` cancels the sender's code only if private key and tenant id coincide |
| Confirmations.ExecutedHadCode | src/core/application/bot.py:875-991 | Whatever was carried out was confirmed with a code issued to that subject less than five minutes before and not superseded since |
| Confirmations.EachCodeWorksOnce | src/core/application/bot.py:875-991 | Two executed confirmations of a subject consume distinct codes, the second one issued after the first was used |
| Confirmations.CodesAreConserved | src/core/application/bot.py:875-991 | Codes issued = spent + burned + superseded + wiped + still pending, for both commands |
| Confirmations.FatesAre | src/core/application/bot.py:875-991 | Over every run spent codes are the executed confirmations, superseded ones met a new request, wiped ones an executed deletion, burned ones a failed or cancelled confirmation |
| Confirmations.RequestsAreIssued | src/core/application/bot.py:875-961 | A request by a sender with a tenant, where the service is there, issues the drawn code, which is outstanding from then on |
| Confirmations.CommandIsRefusedIff | src/core/application/bot.py:875-973 | Exactly which commands are refused for want of a tenant or a service, and which for coming from an organization channel |
| Confirmations.OtherSubjectsAreUnaffected | src/core/application/bot.py:875-991 | A command changes what is outstanding for its own subject only, except for a deletion request in an organization channel |
| Confirmations.SubjectIs | src/core/application/bot.py:852 | The subject is the personal tenant if there is one, else the tenant |
| OcrProcess.AlwaysInStep | src/core/integrations/paddle_ocr.py:149-279 | Over every run with crashes, time-outs, kills and restarts, owner and worker agree on what is in the two queues at every point of a call |
| OcrProcess.FreeLockMeansIdleWorker | src/core/integrations/paddle_ocr.py:202-279 | Whenever the lock is free, a live worker is waiting and both its queues are empty |
| OcrProcess.PutNeverBlocks | src/core/integrations/paddle_ocr.py:237-243 | The request queue has room whenever the owner writes to it |
| OcrProcess.OnlyTheAwaitedAnswerArrives | src/core/integrations/paddle_ocr.py:244-256 | Whatever the owner finds is the answer to its own request: the mismatch branch cannot be reached |
| OcrProcess.LiveWorkerCanAnswer | src/core/integrations/paddle_ocr.py:149-173 | While its worker lives, an awaited answer is at most two worker moves away, and the worker is kept |
| OcrProcess.TimeOutDropsWorker | src/core/integrations/paddle_ocr.py:248-252 | A wait that times out ends with a free lock and without the worker that was waited for |
| OcrProcess.WorkersNeverBlock | src/core/integrations/paddle_ocr.py:149-173 | No worker of any generation, given up or not, is ever held up in a write to its response queue |
| OcrProcess.AlwaysRunsOnce | src/core/integrations/paddle_ocr.py:149-173 | Every request is held by one worker only and computed at most once, across restarts |
| OcrProcess.CallsAreAlwaysRight | src/core/integrations/paddle_ocr.py:237-267 | Every finished call reports on its own request, and no two calls used the same one |
| OcrProcess.AnswersBelongToTheirCalls | src/core/integrations/paddle_ocr.py:237-267 | An answer is what the engine computed for the very input of that call; no late answer to a timed-out request is ever returned |
| OcrProcess.OneWorkerAtATime | src/core/integrations/paddle_ocr.py:202-228 | In every run every live worker that was not given up is the current one, so there is at most one |
| OcrProcess.CallStartsWorkerIff | src/core/integrations/paddle_ocr.py:202-214 | A call uses a live worker again; without one it starts a new one if OCR is available, and else fails |
| OcrProcess.CallsAreConserved | src/core/integrations/paddle_ocr.py:202-283 | In every run the finished calls and the one that holds the lock are exactly the calls that got the lock, in that order: none is lost or reported twice |
| OcrProcess.LiveWorkerServesCall | src/core/integrations/paddle_ocr.py:229-257 | From every reachable state with the lock free and a live worker, a call can be answered with what the engine makes of its input |
| OcrProcess.WorkerCanBeStarted | src/core/integrations/paddle_ocr.py:206-222 | Without a live worker one can be started and brought to where it waits for the request |
| OcrProcess.StartupFailureIsReported | src/core/integrations/paddle_ocr.py:224-228 | An engine that cannot be loaded is reported with its error, and its worker is gone |
| OcrProcess.CrashEndsWorker | src/core/integrations/paddle_ocr.py:149-173 | A crash ends the worker and takes the message not flushed yet; a call that waits for it then can only time out |
| OcrProcess.CloseStopsWorker | src/core/integrations/paddle_ocr.py:259-283 | Closing with the lock free stops the worker, by asking or by force, and reports nothing |
| OcrProcess.QuitEndsWorker | src/core/integrations/paddle_ocr.py:149-173 | A waiting worker that is asked to leave does so |
| ConnectionPool.ConnectionPool.Get | src/core/datasource/pool.py:53-66 | Lends the newest pooled connection if it answers the ping, else closes it and makes one; makes one when none is pooled |
| ConnectionPool.ConnectionPool.Put | src/core/datasource/pool.py:68-89 | Rolls back, then keeps the connection unless it is over age or the pool is full, in which case it is closed |
| ConnectionPool.ConnectionPool.Drain | src/core/datasource/pool.py:91-103 | Closes all pooled connections, newest first, and resets the count |
| ConnectionPool.PutThenGet | src/core/datasource/pool.py:53-89 | A kept connection is the next one lent and the pool is as before, but for the transaction its ping may open; it is kept if and only if it is at most 300 seconds old, counted from its making, and there is room |
| ConnectionPool.LentHasAnswered | src/core/datasource/pool.py:53-66 | In every run: a pooled connection is lent only when it is the newest one and has answered its ping; one that has not is closed; what is lent instead has never been known before and was made at that very time |
| ConnectionPool.ConnectionsAreAccounted | src/core/datasource/pool.py:53-108 | Over every run the connections ever made split exactly into pooled, lent and closed ones, in sets and in number, and none is closed twice |
| ConnectionPool.PoolStaysWithinSize | src/core/datasource/pool.py:43-89 | A pool of positive size never holds more than that many |
| ConnectionPool.LentConnectionIsReset | src/core/datasource/pool.py:53-76 | Every connection lent is lent to nobody else and is open; it is fresh or has been rolled back since its last use, except exactly where a return after that use failed to roll it back |
| ConnectionPool.LentWithTransactionIff | src/core/datasource/pool.py:53-76 | A connection is lent with a transaction open if and only if the ping just before has left one open, or an earlier ping or use has and neither a use that commits nor a rollback has ended it since |
| ConnectionPool.OpenIffLeftOpen | src/core/datasource/drivers.py:245-251 | The same at every point of every run, for every connection |
| ConnectionPool.TransactionIsHandedOn | src/core/datasource/pool.py:60-76 | One connection made, used, returned and lent again: with a ping that opens a transaction it is lent with one although the rollback succeeded; with a failed rollback it is lent unreset, and with a transaction if and only if the use or the ping left one |
| ConnectionPool.DrainClosesEverythingIff | src/core/datasource/pool.py:91-103 | After a drain every connection ever made is closed if and only if none is lent |
| PoolReplacement.ServiceStaysSound | src/core/datasource/service.py:54-125 | Over every interleaving of operations and reloads each lent connection is in the hands of exactly one operation, and all pools stay accounted for |
| PoolReplacement.FetchFindsPool | src/core/datasource/service.py:105-125 | An operation fetches the pool its datasource uses now, or makes an empty one |
| PoolReplacement.BorrowGivesOrEnds | src/core/datasource/pool.py:53-66 | An operation that asks gets a connection nobody holds, or is over |
| PoolReplacement.ReturnEnds | src/core/datasource/pool.py:68-89 | A return ends the operation and gives its connection back to the pool it came from, whatever has become of that |
| PoolReplacement.ReplaceRetiresAll | src/core/datasource/service.py:67-73 | A reload takes every pool out of use |
| PoolReplacement.ClocksAlwaysAgree | src/core/datasource/pool.py:29-31 | In every run all pools, replaced or not, see the time that has passed |
| PoolReplacement.ReloadClosesPoolIff | src/core/datasource/service.py:67-78 | When a reload drains a pool, the pool is closed down completely if and only if nothing of it is lent |
| PoolReplacement.NothingComesBackIff | src/core/datasource/service.py:67-78 | A drained pool is never given a connection again, however the service goes on, if and only if at the drain no operation stands between fetching that pool and returning to it, other than with a connection already too old to be kept |
| PoolReplacement.NothingLeaksWithoutOverlap | src/core/datasource/service.py:54-125 | In every run in which each drain meets that condition, every retired pool is empty and, once no operation uses it, has all its connections closed |
| PoolReplacement.RetiredPoolKeepsItems | src/core/datasource/service.py:67-78 | A drained pool that no operation has fetched any more stays exactly as it is, in every continuation |
| PoolReplacement.OverlapLeaks | src/core/datasource/service.py:105-125 | If one operation alone stands on a pool when it is drained, with a young connection or with none yet, and then returns one at once, that connection is never closed, in any continuation |
| DataSourceRuntime.DataSourceService.Reload | src/core/datasource/service.py:54-78 | Replaces the configurations and forgets cache and failures |
| DataSourceRuntime.DataSourceService.RemoteTables | src/core/datasource/service.py:163-181 | Cache, configuration check and fetch in their order, and what is remembered |
| DataSourceRuntime.DataSourceService.SchemaSnapshot | src/core/datasource/service.py:190-285 | The same for columns, with the cases that need no connection |
| DataSourceRuntime.DataSourceService.PromptBlock | src/core/datasource/service.py:327-360 | The loop visits the datasources in order, skipping, marking and clearing each |
| DataSourceRuntime.SchemaCache.Get | src/core/datasource/introspect.py:30-40 | Returns an entry up to 900 seconds old; drops an older one |
| DataSourceRuntime.BuildListing | src/core/datasource/service.py:237-284 | One listing per authorised table, in order, with the columns shown for it |
| DataSourceRuntime.TargetsAre | src/core/datasource/service.py:219-227 | The tables asked for are those of the entries with a name, in their order, under the database's own schema where none is given |
| DataSourceRuntime.Shown | src/core/datasource/service.py:240-276 | A column is shown exactly if it was returned, belongs to the table and is on the column list found for it |
| DataSourceRuntime.ShownKeepsOrder | src/core/datasource/service.py:240-276 | The columns shown for a list are those shown for its parts, one after the other: none is repeated, dropped or moved |
| DataSourceRuntime.DescriptionIs | src/core/datasource/service.py:253-284 | A listing's description is that of the first entry that spells out schema and name, and empty without one |
| DataSourceRuntime.OwnEntryIsFoundIff | src/core/datasource/service.py:253-275 | The description and column list used for a table are those of its own entry if and only if that entry spells its schema out |
| DataSourceRuntime.ShownIff | src/core/datasource/service.py:240-276 | Exactly the returned columns of the table are shown that are on every column list given by an entry that spells the table out, whichever entry asked for the table |
| DataSourceRuntime.OwnListHoldsIff | src/core/datasource/service.py:219-276 | An entry's own column list holds for all columns a database may return if and only if an entry that spells the table out has a list within it; always for an entry with a schema, for one without only through another entry |
| DataSourceRuntime.OtherPartsAreUnaffected | src/core/datasource/service.py:327-360 | Whatever one datasource answers or cools down from, the parts of all others and their order stay the same |
| DataSourceRuntime.PromptIsPartsAlone | src/core/datasource/service.py:327-360 | The prompt holds exactly the listings that each datasource, asked alone, would have given, in the order of the datasources |
| DataSourceRuntime.RuntimeIdIff | src/core/config/loader.py:1758-1778 | An id is a letter and up to 63 letters, digits and underscores, and perhaps a line feed |
| DataSourceRuntime.ReloadTakesEffect | src/core/datasource/service.py:54-78 | In every run a reload puts the last entry of each id in force; nothing cached and no failure from before counts any more |
| DataSourceRuntime.RuntimeIdsAreNotPrefixed | src/core/config/loader.py:1758-1778 | A validated id, a trailing line feed included, is never a key of the other kind |
| DataSourceRuntime.CacheIsAlwaysCurrent | src/core/datasource/service.py:54-285 | Over every run each cache entry is what was computed last for its key under the present configuration |
| DataSourceRuntime.TablesAreCurrent | src/core/datasource/service.py:163-181 | Tables returned were fetched for that id since the latest reload and at most 900 seconds before the call, or by the call itself if it asks for a refresh |
| DataSourceRuntime.ColumnsAreCurrent | src/core/datasource/service.py:190-285 | Columns returned are the listing, under the present configuration, of columns fetched since the latest reload and at most 900 seconds before the call, or by the call itself if it asks for a refresh |
| DataSourceRuntime.DisabledIsRefused | src/core/datasource/service.py:91-103 | In every run a datasource that is unknown or disabled is refused by every call, whatever was cached before |
| DataSourceRuntime.TablesAreAnswered | src/core/datasource/service.py:167-181 | What is fresh in the cache is the answer, without contact; else an enabled datasource is asked, and its reply is the answer and is stored |
| DataSourceRuntime.ColumnsAreAnswered | src/core/datasource/service.py:200-285 | The same for columns, which need no contact where no table is named |
| DataSourceRuntime.SecondCallIsCached | src/core/datasource/service.py:200-285 | What one call has fetched the next gets from the cache, for 900 seconds |
| DataSourceRuntime.PrefixedIdReadsColumns | src/core/datasource/service.py:167-170 | In every run an id of the form `cols:<id>` is never answered with tables: it gets that datasource's current columns while they are cached, and is refused otherwise |
| DataSourceRuntime.FailureIsFollowedByCooldown | src/core/datasource/service.py:291-360 | Between two reloads, after a failed read the prompt makes no contact to that datasource for 60 seconds |
| DataSourceRuntime.PromptPassesOverIff | src/core/datasource/service.py:291-360 | An enabled datasource is passed over if and only if a read of it by the prompt failed less than 60 seconds ago, since the latest reload |
| DataSourceRuntime.PromptComesBack | src/core/datasource/service.py:291-360 | In every run, when sixty seconds have passed the prompt comes back to every usable datasource |
| DataSourceRuntime.SuccessClearsMark | src/core/datasource/service.py:307-360 | In every run, after a read that succeeds the next round of the prompt does not pass the datasource over |
| ContentOwnership.PrefixIsAlwaysFound | src/api/routers/v2.py:151-166 | `prefix%` matches every text that starts with the prefix, whatever wildcards the prefix contains |
| ContentOwnership.PlainPrefixFinds | src/api/routers/v2.py:151-166 | Without wildcards it matches exactly the texts that start with the prefix up to ASCII case |
| ContentOwnership.SubtreeIsSelected | src/api/routers/v2.py:154-160 | No path below a key without trailing slash is ever missed, wildcards or not |
| ContentOwnership.StrangersAreOtherSpellings | src/api/routers/v2.py:154-160 | For a wildcard-free key the strangers selected are exactly the paths below another spelling of it |
| ContentOwnership.WildcardSelectsStranger | src/api/routers/v2.py:154-160 | Every key with a wildcard selects a path that does not lie below it; the path is given |
| ContentOwnership.SelectionIsSubtreeIff | src/api/routers/v2.py:154-160 | For all paths the selection is the subtree of the path named, with or without slashes at its end, if and only if the key has no wildcard, no ASCII letter and no trailing slash |
| ContentOwnership.TrailingSlashGluesNames | src/api/routers/v2.py:158-172 | For every path, with a trailing slash on the old key the path itself is left behind, and every name below it is put directly behind the new key |
| ContentOwnership.TrailingSlashMissesPath | src/api/routers/v2.py:158-160 | Every key with slashes at its end misses the row of the path it names |
| ContentOwnership.OwnershipTable.RecordContentOwner | src/api/routers/v2.py:92-112 | The first recorded creator of a key stays its creator |
| ContentOwnership.OwnershipTable.MoveContentOwnership | src/api/routers/v2.py:137-178 | Deleting removes exactly the selected rows; renaming takes them out and puts their records in under their new names, whatever order the rows come in, and leaves all others alone; which rows these are the next four rows say |
| ContentOwnership.DeletionTakesSubtree | src/api/routers/v2.py:146-153 | After a deletion nothing of the scope is left of the path and below it, and other scopes are untouched; for a wildcard-free key exactly these rows and those below other spellings have gone |
| ContentOwnership.RenameTakesSubtree | src/api/routers/v2.py:154-178 | After a rename, where only the subtree is selected, each of its rows, the path's own included, is found under the new key plus its rest, with its record |
| ContentOwnership.RenameHolds | src/api/routers/v2.py:154-178 | For a wildcard-free key the table then holds exactly the new names of the affected rows and the rows not affected, and the latter are as before unless their name is an arriving one |
| ContentOwnership.OtherScopesStay | src/api/routers/v2.py:154-178 | No rename of any key to any key touches another organization or another kind of content |
| ContentOwnership.CountIsConservedIff | src/api/routers/v2.py:154-178 | A rename of any key to any key keeps the number of records if and only if no two selected rows get one name and no row that stays has it already |
| ContentOwnership.SubtreeKeepsRecords | src/api/routers/v2.py:165-178 | Where all that is selected starts with the key, new names stay apart and every record keeps its creator and time |
| ContentOwnership.SubtreeStarts | src/api/routers/v2.py:154-170 | All that is selected starts with the key where only the subtree is selected and the key has at most one slash at its end |
| ContentOwnership.RenameBackRestores | src/api/routers/v2.py:137-178 | Renaming to a free destination and back restores the table exactly, nested keys included |
| ContentOwnership.PlainKeyHasNoStrangersIff | src/api/routers/v2.py:154-160 | For a wildcard-free key only the subtree is selected if and only if no row lies below another spelling |
| ContentOwnership.OtherSpellingLosesRecord | src/api/routers/v2.py:165-178 | Two equal paths below two spellings get one name, and a record is lost |
| GitCredentials.NormalizeIsStable | src/core/config/git_credentials.py:26-44 | A normalized host is a host and normalizes to itself |
| GitCredentials.HostIff | src/core/config/git_credentials.py:27-31 | The hosts accepted are exactly labels of up to 63 letters, digits and inner hyphens joined by dots, with a port of one to five digits behind a colon or none |
| GitCredentials.EverySpellingIsFiledAlike | src/core/config/git_credentials.py:34-44 | Case and surrounding white space do not matter |
| GitCredentials.CaseIsIgnored | src/core/config/git_credentials.py:26-44 | Hosts that differ in the case of letters only are filed under one form, without upper-case letters |
| GitCredentials.KeysAreInjective | src/core/config/git_credentials.py:47-48 | For tenants without a colon a key stands for one tenant and one host |
| GitCredentials.CollidingTenantsExtend | src/core/config/git_credentials.py:47-48 | Tenants of any characters share a key only if they are equal or one is the other followed by a colon and a lower-case host name |
| GitCredentials.ExtendingTenantsCollide | src/core/config/git_credentials.py:47-48 | And in that case they do |
| GitCredentials.CredentialFile.LoadToken | src/core/config/git_credentials.py:56-64 | The stored token, or the empty string for anything absent, malformed, refused or unreadable; only an operating system error on looking the file up passes |
| GitCredentials.CredentialFile.SaveToken | src/core/config/git_credentials.py:67-79 | Which error is raised, that an empty token deletes, and that the token is stored unless the file was not read or the write failed before it was replaced |
| GitCredentials.CredentialFile.DeleteToken | src/core/config/git_credentials.py:82-89 | Removes the one key unless the file was not read or the write failed before it was replaced; failures that are keychain errors are not reported, others are |
| GitCredentials.CredentialFile.ListHosts | src/core/config/git_credentials.py:92-101 | The hosts filed under the tenant, each once, in order; none if the file cannot be read |
| GitCredentials.ErrorsAre | src/core/config/git_credentials.py:56-89 | A lookup in a refused or broken file gives the empty string, an error of the operating system is passed on; a deletion reports that error and what escapes from writing, and nothing for a key that is not there |
| GitCredentials.ListedIff | src/core/config/git_credentials.py:92-101 | A listing shows exactly what is filed under the tenant's prefix, and nothing of a broken file |
| GitCredentials.FileRefinesTables | src/core/integrations/keychain.py:93-157 | After any operations of any tenants, with reads failing and writes failing before or after they took place, the flat file shows each tenant exactly what its own operations alone mean |
| GitCredentials.ReportedSaveIsStored | src/core/integrations/keychain.py:112-126 | A save can be reported as failed, by a keychain error or another, and have stored the token all the same |
| GitCredentials.LookupIsMeaning | src/core/config/git_credentials.py:56-64 | A lookup under any spelling gives what the tenant's own operations left there |
| GitCredentials.ListedHostsAreLive | src/core/config/git_credentials.py:92-101 | The hosts listed are exactly those a lookup finds a token for, ports included |
| GitCredentials.ListingIsIsolatedIff | src/core/config/git_credentials.py:92-101 | The operations of one tenant never change the hosts listed for another, in whatever state the file is, if and only if the ids differ, the listed id followed by a colon does not start the other, and the listed id is not the other followed by a colon and a lower-case host name |
| GitCredentials.LookupsAreIsolated | src/core/config/git_credentials.py:1-5 | No operation of a tenant changes what an unrelated tenant looks up, in whatever state the file is |
| GitCredentials.LookupsAreIsolatedIff | src/core/config/git_credentials.py:47-64 | The operations of one tenant never change what another looks up, in whatever state the file is and however it is read, if and only if one id is empty, or they differ and neither is the other followed by a colon and a lower-case host name |
| GitCredentials.ExtendedTenantReadsToken | src/core/config/git_credentials.py:47-48 | A tenant that another one extends can be given that one's token |
| OrganizationAgents.Organization.SetStatus | src/api/routers/v2.py:1527-1575 | Refusals in their order, the new status of the agent found under the trimmed id, and the replacement default where the id as given is the default |
| OrganizationAgents.Organization.SetDefault | src/api/routers/v2.py:1578-1600 | Only an enabled agent becomes the default |
| OrganizationAgents.Organization.Delete | src/api/routers/v2.py:1603-1638 | Refusals in their order, else the row goes |
| OrganizationAgents.AgentsStaySound | src/api/routers/v2.py:1225-1638 | Over every run of the handlers in which ids to disable come without surrounding blanks, at least one agent stays enabled and the computed default is one of them, with or without a stored default |
| OrganizationAgents.StatusKeepsSoundIff | src/api/routers/v2.py:1537-1573 | A status change keeps this if and only if it is refused, enables an agent, names it without blanks, or hits an agent that is neither the only enabled one nor the stored default |
| OrganizationAgents.BlankDisablesLastAgent | src/core/services/resources.py:234-238 | With a blank after its id the only enabled agent is disabled, and none is left |
| OrganizationAgents.StatusIsRefusedIff | src/core/services/resources.py:1011-1093 | A status change is refused exactly for disabling the only enabled agent, else for an ill-formed id, else for an unknown agent, else for one whose stored payload or template is no longer valid |
| OrganizationAgents.StatusTakesEffect | src/api/routers/v2.py:1549-1573 | Otherwise the agent named without blanks has the status, every other agent is as before, and a stored default changes only if it is the id as given |
| OrganizationAgents.StatusIsLastGiven | src/api/routers/v2.py:1527-1638 | After every run an agent has the status an accepted request gave it last, and is there unless one deleted it |
| OrganizationAgents.ReplacementIsFirstOther | src/api/routers/v2.py:1541-1573 | An agent disabled while it is the stored default is replaced by the first other enabled one |
| OrganizationAgents.SettingDefaultTakesEffect | src/api/routers/v2.py:1578-1600 | Exactly an enabled agent can be made the default, and then it is the default |
| OrganizationAgents.DefaultIs | src/api/routers/v2.py:1225-1250 | The default is the stored one; without one the configured agent if enabled, else the first enabled one, else none |
| OrganizationAgents.DeletionTakesEffect | src/api/routers/v2.py:1603-1638 | A deletion that is not refused removes that agent and nothing else |
| OrganizationAgents.DeletionIsRefusedIff | src/api/routers/v2.py:1603-1638 | In such a state a deletion is refused for ids, blanks included, that are no agent's and for the default, and for nothing else |
| OrganizationAgents.DeletionIsAnswered | src/api/routers/v2.py:1603-1638 | With which refusal, in such a state: an ill-formed id, the only enabled agent, the default, or an agent that is not there under the id as given |
| OrganizationAgents.ResourceIdIff | src/core/services/resources.py:225-242 | The ids accepted are a letter and up to 127 letters, digits, underscores, dots, colons and hyphens |
| OrganizationAgents.InterleavedDisablingLeavesNone | src/api/routers/v2.py:1537-1560 | Two requests that both check before either writes can leave no agent enabled |

## Left out

- Floating point: metrics, percentiles, delays and times are real or integer numbers. The gain `2^v - 1` is any increasing function that is 0 at 0, the discount any positive decreasing one.
- AES is any family of permutations of 16-byte blocks, one for each 16-byte key; keys of other lengths are refused where a cipher is needed.
- The standard library's base64 decoder also accepts some texts outside RFC 4648, such as non-zero trailing bits; the model refuses those with misplaced padding.
- ClosedIsComplete: takes any writer; what the service writes after a terminal status is in `RunLog`. Runs that wait for input go on when they are resumed, and then have more to deliver. The similar loop in src/api/routers/workflows.py does not drain and is not modelled.
- Tables shared by threads: `TypingTickets`, `Confirmations`, `DataSourceRuntime` and `GitCredentials` are about operations one after the other. Concurrent use of the same user, tenant or datasource is not covered, nor is the unlocked count of made connections. `PoolReplacement` takes each call on a pool as one step.
- ApprovalTimers and OcrProcess are modelled on values as state machines, not as classes: the objects are updated in place by several threads, which methods with contracts do not express.
- TimersAreSound: does not say that the tracked timer belongs to the newest approval, because a timer that fires early after being replaced re-arms its own approval.
- AtMostOneNotice: a notice is one attempt to send; whether it arrives is not modelled.
- AlwaysInStep: a wait interrupted in the owner itself, such as by a keyboard interrupt, is not a step; the branch for pages that are not a list is left out because the worker always sends a list.
- TablesAreCurrent, ColumnsAreCurrent: reloads during a read are not covered.
- Validation of datasource entries other than their ids and the uniqueness of tables, drivers and their availability, and the text and limits of the prompt.
- NormalizeIsStable: decimal digits other than ASCII in a port, which the source's pattern accepts, are refused; so are letters outside ASCII other than the Kelvin sign, which that pattern refuses as well.
- Who may rename or delete content, and the routes that call the rename.
- Creating and editing agents, synchronising them with templates, and deleting their knowledge categories. Whether a stored agent payload is still valid is a parameter.
- Tokens and hosts that cannot be encoded, and what happens to a temporary file.
- HTTP routes, request schemas, text of replies, permissions of files, and the native keychain command.
- Candidate search, hashing order and writing of the benchmark's documents; candidates and the fixed random order are parameters of the selection.
