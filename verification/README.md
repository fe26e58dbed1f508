# Verified model of the property platform's core protocols

This project models the parts of the platform whose correctness is spread over several actors or over
unbounded runs, and proves what they promise. `dafny verify dfyconfig.toml` checks everything.

* **Lead processing over the transactional outbox.** An inquiry writes a lead, two pending result rows and one
  `lead.created` event. Workers claim the event, ask the model service to classify the lead, and mark the event
  delivered, to be retried, or dead-lettered. The model service posts a spam callback and, once that one is
  acknowledged and the label is not spam, a level callback. A worker that cannot reach the service posts both
  callbacks itself (fail-open). `LeadRecords` is one callback against one lead; `LeadProtocol` is a step system
  with any number of workers, lost or late answers, repeated deliveries, runs that outlive the request that
  started them, and crashes at any point. `LeadSafety` proves its invariant step by step, `LeadTheorems` and
  `LeadTermination` draw the conclusions for every run, `LeadProvenance` traces what is recorded to what was said,
  and `LeadWitness` exhibits the one exceptional run. `LeadService`, `LeadWorker`, `LeadRepair` and `Outbox` are
  the methods of the code that change state, each proved against the functions the step system uses.
* **Incremental re-indexing of documents** (`RagIndex`, `RagHandler`).
* **Keyset pagination** of the public search (`Keyset`), with SQL's three-valued logic written out.
* **Refresh-token rotation and session invalidation** (`Sessions`, `SessionEffects`, `SessionTheorems`,
  `AuthService`); the practice followed is section 5.2.2.3 of RFC 6819 and section 4.14.2 of RFC 9700.
* **The request limiter** (`RateLimit`).
* **Dashboard aggregation and viewing slots** (`Trend`, `Ranking`, `SlotMatch`).

State that the code updates in place is a class whose methods equate the new state with a function of the old
one; what the code is for is then proved about those functions, over all inputs or all runs, and what a function
does to each field is stated separately, in the code's own terms.

## Assumptions

* One callback, one statement that claims or marks an event, one refresh, logout or limiter call is atomic. A
  marking statement that raises has changed nothing.
* Every callback carries retry count 0, as all three senders in the repository do. What happens otherwise is
  stated exactly by `LeadRecords.ReopensExactlyWhen`.
* The classifiers, the embedding provider (one vector per text), the chunker, the clock, random numbers and fresh
  identifiers are parameters; SHA-256 is injective; token hashes and token ids are unique. Clocks do not go back.
* Prices and areas in a cursor are exact decimals; bucket edges and shares are exact quotients rounded once, ties
  to even. The code computes these in floating point. All datetimes are in UTC.
* Column defaults that the code evaluates when the module is imported (`backend/app/common/events.py:68-70`)
  are a parameter: the time at which a row says it was published. A requeued event gets the time of the run as
  its `updated_at`; under the same defaults the code stores an earlier one.

## Where the code and its descriptions part

* The worker's comment promises that a lead never stays pending forever (`workers/handlers/leads.py:47-51`). It
  can: when a first classification recorded "not spam", its acknowledgement was lost, and a later one said "spam",
  the later callback is a duplicate, no level callback follows, and the event is delivered. `NoLostLead`,
  `OutcomeDecides` and `HandlerPostcondition` have this as their exact exception and `DeliveredButOpen` reaches it.
* Callbacks are called idempotent, but a row remembers only the key stored last. A repeated callback can reopen a
  finished lead (`AlternatingRetryCountsReopen`).
* Replaying a rotated refresh token is meant to revoke its family. The blacklist answers first, for as long as the
  token is accepted at all, so the family is never revoked, unless the token was redeemed in the very second it was
  issued (`ReplayIsInert`, `ReplayInertExactlyWhen`). A refused refresh request also rolls the table back
  (`backend/app/common/dependencies.py:8-15`) while its writes to Redis stay; the runs cover both outcomes.
* An administrator's session revocation blacklists the session's id, not the token's (`backend/app/auth/service.py:273`); the
  token is refused because its row is revoked.
* A repair run fails as a whole when a lead has a dead-lettered repair event and all its original events were
  delivered (`CollidesExactlyWhen`).
* The limiter is stricter than a sliding window: a caller who never pauses for a window is cut off
  (`DecisionFromHistory`, `SteadyCallerIsRefused`).

## Model

| member | source | states |
|---|---|---|
| LeadRecords.CallbackKeepsRecord | backend/app/leads/service.py:267-376 | Any callback the senders can build, in any order that respects "level after spam", succeeds, keeps exactly one row per stage and a status determined by the two rows, settles its stage, never rewrites a settled row, never reopens a terminal lead and never touches the review |
| LeadRecords.CallbackIsRecorded | backend/app/leads/repository.py:91-212 | A callback that is not a repetition leaves one row of its stage with its status, retry count and key, each of tag, score and details stored if given and kept otherwise, and everything else about the lead as it was |
| LeadRecords.CallbackMovesLead | backend/app/leads/service.py:306-315 | The status that follows: failed, completed for spam or any completed level, pending_level for a completed non-spam, otherwise unchanged |
| LeadRecords.CallbackRefused | backend/app/leads/service.py:286-293 | A repetition of the last callback returns the stored row and changes nothing; a wrong tenant and duplicate rows are errors |
| LeadRecords.ReopensExactlyWhen | backend/app/leads/service.py:289-315 | For arbitrary retry counts, a callback takes a terminal lead back to pending if and only if it is a completed non-spam spam callback whose key is not the last stored one |
| LeadRecords.AlternatingRetryCountsReopen | backend/app/leads/repository.py:91-137 | Concrete sequence of retry counts 0, 1, 0 in which a repeated callback reopens a completed lead |
| LeadSafety.StepKeeps | backend/app/leads/service.py:45-376 | Each of the eighteen kinds of step (creation, claim, retry loop, fail-open, marks, crash, classification, late and repeated delivery) keeps the whole protocol invariant, and knowledge only grows |
| LeadSafety.ReachableOk | workers/outbox.py:22-137 | The invariant holds after every run |
| LeadTheorems.NoLostLead | workers/handlers/leads.py:46-126 | In every reachable state a lead that is not completed or failed has its event pending, processing or dead-lettered, or else the event was delivered by an attempt that said spam over a recorded completed non-spam verdict |
| LeadTheorems.OutcomeDecides | workers/handlers/leads.py:57-126 | For each justified outcome the lead is open if and only if that exception applies |
| LeadTheorems.HandlerPostcondition | workers/handlers/leads.py:70-126 | Once the handler has returned normally, whatever else runs, the lead is terminal except exactly in that case |
| LeadTheorems.HistoryHolds | backend/app/leads/service.py:289-368 | Over any stretch of any run the first recorded spam and level verdicts never change, terminal leads stay terminal, reviews are untouched, and delivered or dead-lettered events never change again |
| LeadTheorems.OutboxSafety | workers/outbox.py:22-137 | An event has at most one claimant and only while processing; its retry count is its number of failed attempts; its handler starts at most max(1, max_retries) times; it is dead-lettered exactly when it has failed that often |
| LeadProtocol.SpamRecorded | model-service/app/service.py:59-80 | On a lead without a spam verdict, the spam callback records what the classifier said: label, status, score and details |
| LeadProtocol.LevelRecorded | model-service/app/service.py:82-105 | The same for the level callback |
| LeadProvenance.VerdictsHaveCauses | model-service/app/service.py:51-105 | In every reachable state each recorded verdict is, field for field, one a classifier returned for that very lead in this run (a level verdict only when the run's spam verdict was not spam), or the not spam and normal of a worker that gave up on it |
| LeadTermination.WorkStep | workers/outbox.py:22-55 | Every worker step on an event uses up a bounded budget and no other step adds to it |
| LeadTermination.WorkBound | workers/outbox.py:101-137 | Over any run the number of worker steps on an event is at most its budget; once spent, the event is delivered or dead-lettered unless a worker crashed while holding it |
| LeadTermination.LifetimeBound | workers/outbox.py:101-137 | Over everything that can follow its creation, workers take at most max(1, max_retries) * (2 * max_attempts + 8) steps on an event |
| LeadTermination.Progress | workers/outbox.py:77-90 | An event that is neither final nor abandoned always enables a worker step other than a crash |
| LeadWitness.DeliveredButOpen | model-service/app/service.py:59-91 | The exception is reachable: a run after which the event is delivered and the lead is still in pending_level |
| LeadService.Backend.CreateInquiry | backend/app/leads/service.py:45-132 | Succeeds exactly when the listing is active, the user exists with a complete profile and the message is not blank; then stores, field by field, the unreviewed pending lead, both pending rows and one claimable event that carries lead, tenant and message, and otherwise nothing |
| Common.StripCuts | backend/app/leads/service.py:64 | The stored message is the given one without the white space at its ends, and nothing else is cut |
| LeadService.Backend.CreatePending | backend/app/leads/repository.py:81-89 | Appends one pending row of the stage and changes nothing else |
| LeadService.Backend.GetByIdempotency | backend/app/leads/repository.py:145-152 | Finds the row with the key, nothing, or fails on several |
| LeadService.Backend.UpsertResult | backend/app/leads/repository.py:91-212 | Leaves one row of the stage that carries the callback's fields and keeps those it leaves out, changes nothing else, and fails exactly on duplicate rows |
| LeadService.Backend.ClassificationCallback | backend/app/leads/router.py:149-195 | The endpoint has the effect of the callback function on the table, so that an accepted new callback leaves one row that carries its fields; it leaves the table alone on an error and keeps the row invariant |
| LeadService.CallbackKeepsRows | backend/app/leads/repository.py:104-137 | No callback, whatever its fields, breaks "at most one row per stage" or meets duplicate rows |
| LeadService.BackfillKeepsRows | backend/scripts/backfill_legacy_lead_processing.py:78-155 | After a backfill no lead is in the legacy status, the row invariant holds, and other leads are untouched |
| LeadService.BackfilledMeans | backend/scripts/backfill_legacy_lead_processing.py:91-155 | Where a legacy lead ends: completed with a spam row when blank and blank counts as spam, otherwise in pending_spam with its old rows or fresh pending ones |
| LeadService.CountersMean | backend/scripts/backfill_legacy_lead_processing.py:91-152 | Each counter is the number of leads it is there to count |
| LeadService.CountersOfLeads | backend/scripts/backfill_legacy_lead_processing.py:91-152 | Which leads those are: blank ones, the others, those without a spam row, and the queued ones without a level row or an event |
| LeadService.Backend.BackfillOne | backend/scripts/backfill_legacy_lead_processing.py:78-155 | One turn of the loop: rows, status, event and counters |
| LeadService.Backend.BackfillLegacy | backend/scripts/backfill_legacy_lead_processing.py:64-162 | The whole script: every scanned lead ends completed as spam or waiting with its rows and event, counters agree with the tables before the run, and a dry run changes nothing but counts the same |
| LeadWorker.SendCallback | model-service/app/service.py:17-36 | A callback that reaches the backend has its whole effect whether or not the answer arrives; one that is lost changes nothing |
| LeadWorker.ClassifyLead | model-service/app/service.py:40-98 | Returns normally exactly when the needed callbacks are acknowledged; a stage without a verdict then shows, field for field, what its classifier said; the level row changes only after an acknowledged non-spam verdict |
| LeadWorker.DelayDoubles | workers/handlers/lead_processing_client.py:20-22 | The delay starts at the base and doubles up to the cap |
| LeadWorker.SleepBound | workers/handlers/lead_processing_client.py:20-22 | Total sleep between attempts is at most the cap per gap and at most base * (2^(attempts-1) - 1) |
| LeadWorker.ForwardToModelService | workers/handlers/lead_processing_client.py:25-99 | Answers with the verdict of the first attempt to succeed, after that many posts, and with none exactly when all max_attempts fail; sleeps exactly the sum of the capped exponential delays; each stage keeps the first callback to arrive |
| LeadWorker.PostFailOpen | workers/handlers/leads.py:105-120 | Completes exactly when both callbacks are acknowledged; a stage without a verdict then reads not spam, or normal, with the given details |
| LeadWorker.HandleLeadCreated | workers/handlers/leads.py:46-126 | Exactly when it is skipped, classified, completed by fail-open or raises; what is on record in each case; and the sequential form of the post-condition |
| LeadRepair.DecisionMeans | backend/scripts/repair_stuck_lead_processing.py:88-138 | Each of the five decisions if and only if the events are so, with the ten-minute limit written out |
| LeadRepair.CollidesExactlyWhen | backend/scripts/repair_stuck_lead_processing.py:88-147 | The repair key collides if and only if there are repair events, all dead-lettered, and every original event is delivered |
| LeadRepair.RepairWorks | backend/scripts/repair_stuck_lead_processing.py:88-147 | Without a collision the lead ends up with an active event or a delivered repair event, keys stay unique, and deciding again skips it |
| LeadRepair.RequeuesAsNew | backend/scripts/repair_stuck_lead_processing.py:95-147 | What is requeued or published is claimable at once with all its retries, and every other event of the lead stays as it was |
| LeadRepair.RepairIsIdempotent | backend/scripts/repair_stuck_lead_processing.py:61-154 | An immediate second run changes no event and only counts skips |
| LeadRepair.TallyTotal | backend/scripts/repair_stuck_lead_processing.py:76-147 | Every scanned lead lands in exactly one counter |
| LeadRepair.CountersMean | backend/scripts/repair_stuck_lead_processing.py:92-138 | Each counter is the number of leads decided that way |
| LeadRepair.RepairScript.RepairOne | backend/scripts/repair_stuck_lead_processing.py:76-147 | The branching turn of the loop does what the order-free decision says |
| LeadRepair.RepairScript.RepairStuck | backend/scripts/repair_stuck_lead_processing.py:61-154 | The run fails exactly when applying and some scanned lead collides, and then changes nothing; otherwise it repairs every scanned lead and counts each once |
| Outbox.OutboxTable.ClaimPendingEvent | workers/outbox.py:77-90 | Claims an earliest claimable row, or reports none exactly when there is none |
| Outbox.OutboxTable.MarkDelivered | workers/outbox.py:93-98 | Marks only that row delivered |
| Outbox.OutboxTable.MarkRetry | workers/outbox.py:101-137 | Counts the failure and keeps its error on that row only; the row is dead-lettered exactly when it was the last one allowed and otherwise out of reach for its backoff |
| Outbox.OutboxTable.ClaimAndDispatch | workers/outbox.py:22-55 | One polling turn: which row it picks and, field by field, the row it leaves: delivered with the time, or one more failure and dead-lettered or delayed by 0.75 to 1.25 times min(300, 5 * 2^r) |
| Outbox.RetryIsDelayed | workers/outbox.py:109-128 | A failed event with retries left is pending, not claimable now, and becomes available within those bounds |
| Outbox.PublishedIsClaimable | backend/app/common/events.py:54-126 | A published event is claimable at once, with no failures, three retries, and its name, aggregate and payload |
| Outbox.BaseDoubles | workers/outbox.py:115-116 | The base is five seconds first and doubles up to 300 |
| Outbox.BackoffBounds | workers/outbox.py:109-118 | Each delay lies in [0.75, 1.25] times the base, and the base never shrinks and stays in [5, 300] |
| Outbox.TotalBackoffBound | workers/outbox.py:109-118 | The total delay over m retries is at most 1.25 * min(5 * (2^m - 1), 300 * m) and at least 0.75 * 5 * m |
| RagIndex.ReindexKeepsSound | workers/handlers/rag.py:189-217 | Re-indexing keeps "one row per hash, each with the text and the embedding of its hash" |
| RagIndex.IncrementalEqualsFromScratch | workers/handlers/rag.py:127-220 | Whatever sound rows were stored before, the active rows after a successful run are exactly the index from scratch: hash, text, embedding and page ids |
| RagIndex.EmbedOnce | workers/handlers/rag.py:141-162 | Over any sequence of versions no text is embedded twice, the row count is the number of distinct hashes ever seen, each vector embeds its own text, and the active rows are the last version's index |
| RagIndex.ReappearingHashRevives | workers/handlers/rag.py:189-196 | A hash that comes back is taken from orphaned to active with its stored vector and new pages |
| RagHandler.DocumentIsGrouped | workers/handlers/rag.py:127-139 | Grouping by hash yields exactly the non-blank chunk texts, each with its pages in page order, once per occurrence |
| RagHandler.GroupByHash | workers/handlers/rag.py:127-139 | The one-pass grouping loop equals that declarative grouping |
| RagHandler.CreateChunksFromPages | workers/handlers/rag.py:289-329 | The nested loop yields the non-blank chunks of non-blank pages in reading order |
| RagHandler.RagDocument.LoadExisting | workers/handlers/rag.py:141-147 | Every stored hash is mapped to a row that has it |
| RagHandler.RagDocument.MissingHashes | workers/handlers/rag.py:149-152 | Exactly the hashes without a row, once each |
| RagHandler.RagDocument.RemapReused | workers/handlers/rag.py:189-196 | Reused rows get the new pages and become active; other rows stay |
| RagHandler.RagDocument.InsertNew | workers/handlers/rag.py:198-213 | One new active row per missing hash, with its own vector |
| RagHandler.RagDocument.OrphanNotInSet | workers/handlers/rag.py:251-265 | Orphans exactly the active rows outside the set |
| RagHandler.RagDocument.WriteIndex | workers/handlers/rag.py:173-217 | Remapping, inserting and orphaning together are one re-indexing step, and the active rows equal the index from scratch |
| RagHandler.BuildPages | workers/handlers/rag.py:97-117 | One page per extracted text, in order, numbered from 1, with its own id and content |
| RagHandler.ReindexedServes | workers/handlers/rag.py:127-217 | Said of the extracted texts alone: the active rows are one per non-blank chunk they yield, each with its embedding and the ids of the pages it is on, in page order and once per occurrence |
| RagHandler.ListedAsOften | workers/handlers/rag.py:127-138 | A page's id is listed exactly as often as the page yields the chunk |
| RagHandler.RagDocument.Ingest | workers/handlers/rag.py:23-231 | Which of the four outcomes occurs; on success the pages are the extracted texts in order, the active rows serve exactly these texts, and only new texts were embedded; on any other the document is gone |
| Keyset.OrdersMean | backend/app/listings/query_service.py:97-108 | For each of the six sorts, which of two rows comes first, read off their dates, prices, areas and ids |
| Keyset.BeforeIsStrictTotal | backend/app/listings/query_service.py:97-112 | Each of the six orders, nulls last with the id tie-break, is a strict total order on rows with distinct ids |
| Keyset.CursorEqualsOrder | backend/app/listings/query_service.py:115-186 | The WHERE clause built from a row's cursor is true, in three-valued logic, exactly for the rows strictly after it |
| Keyset.LimitFacts | backend/app/listings/router.py:293-304 | A limited query returns the first rows in order: sorted, of the right size, everything else later |
| Keyset.PageFacts | backend/app/listings/router.py:293-308 | A page holds the next rows without gaps; has_next is exact; the next cursor points at its last row |
| Keyset.WalkIsSorted | backend/app/listings/router.py:293-308 | While the table changes arbitrarily between requests, the rows returned are strictly increasing and after the starting cursor |
| Keyset.WalkFinds | backend/app/listings/router.py:293-308 | A row that stays, matching and unchanged, and lies after the cursor is returned by the time has_next is false |
| Keyset.ReturnedExactlyOnce | backend/app/listings/router.py:293-308 | It is returned exactly once, and no row is returned twice |
| Keyset.SuffixShrinks | backend/app/listings/router.py:293-308 | Every further page leaves exactly a page full fewer rows to come |
| Keyset.StaticWalk | backend/app/listings/router.py:293-308 | On a static table the walk ends and its pages concatenate to the sorted suffix |
| Sessions.RotationKeepsChain | backend/app/auth/service.py:183-205 | Rotating an unrevoked session, necessarily the last of its family, extends the family's chain |
| Sessions.BlacklistActiveEntries | backend/app/auth/service.py:53-69 | Revoking everything blacklists exactly the user's active sessions |
| SessionEffects.RefreshIssuesExactlyWhen | backend/app/auth/service.py:158-214 | A session is issued if and only if the token decodes, is not blacklisted, its row is known, unrevoked and unexpired, and its user is active; it has the same user and family, the old row is revoked and points at it, the token is blacklisted, and nothing else changes |
| SessionEffects.RefusalLeaves | backend/app/auth/service.py:165-198 | What each refusal leaves: nothing changed, the token used up for an inactive user, or the family revoked |
| SessionEffects.LoginIssues | backend/app/auth/service.py:287-316 | One new unrevoked session in a family of its own, with its lifetime; nothing else changes |
| SessionEffects.RevokeFamilyEnds | backend/app/auth/service.py:318-327 | Exactly the user's active sessions of that family are revoked, exactly that user's marker is set for a week, and every other row, entry and marker stays |
| SessionEffects.RevokeAllEnds | backend/app/auth/service.py:53-69 | Exactly the user's active sessions are revoked and their ids blacklisted, the user is marked, and every other row, entry and marker stays |
| SessionEffects.LogoutEnds | backend/app/auth/service.py:216-234 | The user is marked; a presented token that decodes is blacklisted and its row revoked; everything else stays |
| SessionEffects.RevokeSessionEnds | backend/app/auth/service.py:258-274 | Answers whether the session exists, revokes only it and blacklists only its id |
| SessionEffects.AcceptsExactlyWhen | backend/app/auth/dependencies.py:33-60 | An access token is let in if and only if it has not expired, its user is active, and no live marker is later than the second it was issued in |
| SessionTheorems.ChainAlways | backend/app/auth/service.py:158-205 | In every reachable state each family is one chain in issue order and all its sessions but the last are revoked |
| SessionTheorems.ChainIsLinear | backend/app/auth/service.py:199-205 | The pointers of a chain neither branch nor cycle and skip nothing |
| SessionTheorems.RedeemedOnce | backend/app/auth/service.py:158-214 | Over every run a refresh token is redeemed at most once |
| SessionTheorems.EndedTokenNeverRedeemed | backend/app/auth/service.py:216-274 | A refresh token presented at logout, or whose session was revoked singly, by password reset or with its family, is never redeemed afterwards |
| SessionTheorems.ReplayIsInert | backend/app/auth/service.py:174-184 | Presenting a redeemed token again changes nothing, at any later time, if it was redeemed in a later second than its issue |
| SessionTheorems.ReplayInertExactlyWhen | backend/app/auth/service.py:176-187 | That condition is exact: otherwise some later replay does revoke the family |
| SessionTheorems.InvalidationIsPermanent | backend/app/auth/dependencies.py:38-51 | An access token issued strictly before a logout, password reset or family revocation is refused in every later state at every time |
| SessionTheorems.MarkerStays | backend/app/auth/service.py:36-39 | Once set, a user's marker is only ever replaced by a later one |
| SessionTheorems.PermanentExactlyWhen | backend/app/common/security.py:24-35 | Markers outlive access tokens for all times if and only if access tokens live less than seven days |
| SessionTheorems.MarkerRejectsWholeSeconds | backend/app/auth/dependencies.py:47-51 | A live marker rejects exactly the tokens whose whole second began before it, so also one issued after it in the same second |
| AuthService.Service.Refresh | backend/app/auth/service.py:158-214 | Issues a session exactly for a redeemable token, and updates sessions and Redis as the function the theorems are about |
| AuthService.Service.RevokeFamily | backend/app/auth/service.py:318-327 | The loop revokes exactly the user's active sessions of the family and sets the marker |
| AuthService.Service.Logout | backend/app/auth/service.py:216-234 | Blacklists and revokes a decodable token and always sets the marker |
| AuthService.Service.RevokeSession | backend/app/auth/service.py:258-274 | Revokes the one session and blacklists its id, or reports that there is none |
| AuthService.Service.RevokeUserAllSessions | backend/app/auth/service.py:53-69 | Revokes exactly the user's active sessions, blacklists their ids, sets the marker and counts them |
| RateLimit.Limiter.CheckRateLimit | backend/app/common/rate_limit.py:9-30 | The method updates the counters exactly as the function the theorems are about |
| RateLimit.CallParameters | backend/app/common/rate_limit.py:15-18 | A call's own limit and window count unless absent or zero, then the defaults do |
| RateLimit.CounterIsStreak | backend/app/common/rate_limit.py:18-29 | Over any calls on any keys, a counter is the length of the current streak of accepted calls with gaps below the window |
| RateLimit.GapsInStreak | backend/app/common/rate_limit.py:20-29 | Inside a streak every gap between accepted calls is below the window |
| RateLimit.DecisionFromHistory | backend/app/common/rate_limit.py:20-30 | A call is accepted if and only if none was accepted within the last window or the streak is below the limit |
| RateLimit.SlidingWindow | backend/app/common/rate_limit.py:9-30 | Every half-open interval one window long holds at most max_requests accepted calls on a key |
| RateLimit.SteadyCallerIsRefused | backend/app/common/rate_limit.py:20-30 | A call can be refused although its window holds fewer accepted calls than the limit |
| Trend.BucketDates | backend/app/admin/query_service.py:182-203 | The loop yields the buckets the tiling theorem is about |
| Trend.BucketsTile | backend/app/admin/query_service.py:182-203 | There are buckets exactly for a positive count and a window in order, and they tile [date_from, date_to + 1 day) without gap or overlap |
| Trend.BucketsAreEven | backend/app/admin/query_service.py:196-202 | No bucket is more than a microsecond away from its exact share of the window |
| Trend.BuildTrend | backend/app/admin/query_service.py:330-357 | Each point has its own bucket and the number of logs from its start on and before its end |
| Trend.ExactlyOneBucket | backend/app/admin/query_service.py:182-203 | A moment lies in exactly one bucket if it is in the window, and in none otherwise |
| Trend.TrendConserves | backend/app/admin/query_service.py:330-357 | The counts sum to the total search volume |
| Ranking.RankSegments | backend/app/admin/query_service.py:161-179 | The first `limit` items of the ranking, with ranks 1, 2, ... and rounded shares |
| Ranking.SortRanked | backend/app/admin/query_service.py:167 | Sorting by count descending, then label, orders every pair strictly |
| Ranking.CountsNeverGrow | backend/app/admin/query_service.py:167 | Down the list counts never grow, and equal counts are in alphabetical order |
| Ranking.ShareMeans | backend/app/admin/query_service.py:170-175 | A share is count over total to the nearest ten-thousandth, zero without a total, and at most one |
| Ranking.TopSegments | backend/app/admin/query_service.py:167-169 | An item is left out only if the list is full and every listed item ranks before it |
| Ranking.OrderDoesNotMatter | backend/app/admin/query_service.py:167 | The ranking does not depend on the order of the dictionary |
| Ranking.ListAuditLogs | backend/app/admin/query_service.py:440-509 | The page of the selected rows, with clamped page number and size, the total, and whether a page comes before |
| Ranking.SelectionKeeps | backend/app/admin/query_service.py:470-492 | The selection holds each row of the feature area and role asked for, as often as it is there, and no other |
| Ranking.SelectionInOrder | backend/app/admin/query_service.py:470-492 | It keeps the order of the rows |
| Ranking.PagesCover | backend/app/admin/query_service.py:495-509 | has_next turns false exactly when the pages so far are all selected rows, once and in order |
| SlotMatch.CalendarMeans | backend/app/ai/listing_user_assistant.py:588-614 | The date, the hour and the weekday of a moment, fixed by a known Monday |
| SlotMatch.TwelveHourRoundTrip | backend/app/ai/listing_user_assistant.py:728-739 | Every hour of the day is recovered from its twelve-hour form |
| SlotMatch.BareHour | backend/app/ai/listing_user_assistant.py:728-732 | An hour without am or pm is the afternoon's from 1 to 7, unless the query speaks of the morning, and otherwise stays as written |
| SlotMatch.ParseTimePreferences | backend/app/ai/listing_user_assistant.py:669-726 | The preferences are what the query says: first day word, first weekday, first part of day, a stated hour before any part of day |
| SlotMatch.MatchSlot | backend/app/ai/listing_user_assistant.py:570-619 | No slot exactly when none is free, in the future and meets all preferences; otherwise the declarative choice: nearest to the requested hour or earliest, ties by list order |
| SlotMatch.ChoiceUnique | backend/app/ai/listing_user_assistant.py:616-619 | That choice is unique |
| SlotMatch.ChoiceMeans | backend/app/ai/listing_user_assistant.py:578-619 | The chosen slot lies in the future, has a place left, meets day, weekday and hours, and no other such slot is nearer to the requested hour or, without one, earlier |
| SlotMatch.StepNarrows | backend/app/ai/listing_user_assistant.py:578-614 | Narrowing one preference at a time keeps the slots that pass all so far, and an empty step means no slot meets them all |
| SlotMatch.CheapestSurvives | backend/app/ai/listing_user_assistant.py:616-619 | The first minimum of the narrowed list is the first minimum among the passing slots of the whole list |

## Left out

* Races inside one callback, refresh or limiter call, and a repair run that requeues the event of a slow but live
  worker: the step system has no repair step, and `LeadRepair` looks at the events of a lead between other steps.
* `LeadProtocol` lets any claimable event be claimed; that the earliest is taken is proved for
  `Outbox.OutboxTable.ClaimPendingEvent` only. Events other than `lead.created` appear only there.
* Lead fields other than tenant, message, processing status and review, domain event logs, and the lead status and
  review endpoints.
* Blank messages with a legacy lead when empty messages are not treated as spam: the backfill queues them and the
  worker skips them, so they are outside the invariant, which starts from `create_inquiry`.
* Exceptions other than a failing embedding call inside the document handler, which delete the document and raise;
  object storage, page images and text extraction.
* Search filters, unrecognised sort values with a cursor, cursors that do not decode, and the cache of the first page.
* Login and registration checks, password hashing, token signatures, and roles and permissions; a login here is one
  new family. The blacklist of access-token ids is read by the code but written by no call modelled here.
* Negative windows of the limiter, on which Redis raises, and the tables of limits per action.
* Filters of the search logs other than the window, demand gaps, budget bands, and the query behind the audit log,
  whose result is the list of rows here.
* The regular expressions that find hours in a query; their matches are parameters.
* HTTP, the admin and web front ends, notifications, guardrails, OCR and media processing.
