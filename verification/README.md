# Verification of the alert pipeline

A Dafny 4.11 model of a durable alert pipeline and proofs about it. Posts of a Telegram channel go through a local
outbox and a Redis stream to a worker, which matches them against user-defined phrases, fans them out to the
matching users and delivers three stages of alert to each. The pipeline promises that nothing is lost and nothing is
doubled under crashes, redelivery, several workers and concurrent deletion of user data. `dafny verify dfyconfig.toml`
checks everything.

## How it is built

- **Matcher** (`Strings`, `Matcher`, `TriggerCache`, `LinearizableMatcher`): the Aho-Corasick automaton grown in
  place, proved against naive search; the phrase cache with its version counter and compare-and-swap; concurrent
  calls of the cached matcher.
- **Delivery** (`DeliveryState`, `DeliveryRedis`, `DeliveryRun`, `DeliveryInvariant`, `DeliveryCarry`,
  `DeliveryProofs`, `DeliverySteps`, `DeliveryTheorems`, `DeliveryOnce`, `DeliveryChain`, `DeliveryAcceptance`,
  `DeliveryCauses`, `DeliveryCounter`, `DeliveryScripts`, `DeliveryScrub`, `DeliveryExtend`, `DeliveryLeftover`,
  `DeliveryLimits`, `DeliverOne`). `DeliveryState` gives each Lua script's effect on the keys; `DeliveryRedis` has one
  method per script, proved to have that effect, and logs every command of its process. `DeliveryRun` is the system:
  every process takes atomic steps, in any order, and may crash between any two of them. `DeliveryInvariant` says what
  every reachable state satisfies, and the theorems follow from it: `DeliveryTheorems` and `DeliveryOnce` on loss,
  doubling, fencing and leases, `DeliveryChain` and `DeliveryAcceptance` on the order of the stages, `DeliveryCauses` on
  why an entry is settled as it is, `DeliveryCounter` and `DeliveryScrub` on the deletion's wait and scan.
  `DeliveryExtend` shows how a run can go on; `DeliveryLeftover` and `DeliveryLimits` build on it the runs in which a
  promise fails. `DeliverOne` is the delivery routine as one procedure; the commands it logs are proved to be the
  system's steps.
- **Ingestion and fan-out** (`Ingestion`, `Scraper`, `Paging`, `FanOut`, `FanOutRun`, `FanOutReplay`). `Ingestion` is the
  system of atomic actions; the scraper's procedures run with any number of other actions between their own.
- **Timed parts** (`RateLimiter`, `StreamRetention`, `AlarmPoller`, `AlarmPollers`) and **identities** (`Identity`,
  `DeliveryContract`).

A run is a sequence of states and actions; a theorem over runs holds at every index of every run. Facts about the
past that no process can read (what was accepted, closed, marked, granted, acknowledged) are kept in separate history
fields. Random tokens and generations are values not used before. The clock is the server's and never goes back.

## What the model takes as given

- A delivery operation is cancelled when its last renewal is over 90 s old or its budget is spent; the budget is the
  largest that the configuration allows, 330 s. Its reservation may be given back at any time after.
- A registration, or another deletion, may begin while a deletion of the same recipient still runs: the source stops
  renewing the lock when a renewal fails and lets the deletion go on. From then on any number of deletions may be at
  work on that recipient. A theorem that needs it says for which recipients it holds: those in `overlapped` and `late`
  of the history are left out, and no theorem about one recipient asks anything of another.
- A post's date does not change, so an event carries it. A source date is at most 300 s ahead of the clock, which the
  message contract enforces. Jobs are those the producer writes: with source time, identity and generation.
- A source post is valid if it meets the message contract from the moment it appears; one that is dated further ahead
  than 300 s when a scan sees it is skipped and the checkpoint moves past it. The bootstrap point is the newest post
  at which a first scan stopped.
- All-clear markers, the night window, mute, the blocked flag, the rate slot and Telegram's outcome are arbitrary
  answers at the point where they are asked for. A pending entry may be claimed at any time, which covers the idle
  limit, and a retry counter may expire at any time.
- The word-character test is an arbitrary predicate. JSON is its decoded object, an ISO time its instant.
- Stream ids are below 2^53 in each part, so that Lua compares them exactly.

## Where the code falls short of its promise

- **Profile lock.** A deletion goes on after its lock has lapsed. If the recipient registers meanwhile, a post can be
  accepted twice under one generation (`OverlapAcceptsTwice`) and an accepted stage can be lost (`OverlapLosesJob`).
  The guard is that the lock is still one's own; `OverlappedIff` says for whom it was not.
- **In-flight counter.** END_DELIVERY after the reservation's 600 s takes away another send's count, and a deletion then
  sees zero while that send is under way (`LateReturnUncovers`).
- **Stage chain.** A deletion that stops after it dropped the enqueue markers but before it dropped all stage marks,
  followed by registration and a replay of the source post, leaves marks of the earlier generation behind. If no live
  mark says at the acceptance that stage 1 or 2 was sent, the chain holds (`StageChain`). If one does and the stage
  after it has none, the chain can break from there, whatever the system looks like (`GapBreaksChain`); `FirstMarkLeft`
  and `SecondMarkLeft` reach such acceptances. With the marks of stages 2 and 3, or of all three, left over neither
  theorem applies. `ChainStep` needs no condition.
- **Phrase cache.** An addition whose cache update has completed can be lost in two ways: the cache held the phrase
  while the database did not (`LosingRun`), or the phrase is a built-in location key, which every snapshot leaves out
  (`LosingStaticRun`). `CompletedSurvivesIff` shows that there is no third.
- **Rate limit.** Deleting a user drops the chat's slot key, after which a message can follow after 50 ms
  (`DeletionBreaksChatSpacing`). With no such deletion between them the gap is 1000 ms (`ChatSpacing`); the gaps among
  all messages and among repeats and the pauses do not depend on it.
- **Alarm state.** The 135 s hold only for polls and refreshes without delay; `BoundIff` gives the exact bound for any
  delays, `SlowWriteExceedsBound` and `SlowRefreshExceedsBound` a state for each side. The interval between
  two polls is taken as 0. With two pollers on one key a failsafe value can be extended (`FailsafeExtended`);
  `ExtendedByAnother` and `FailsafeBound` say by whom and for how long.
- **Retention.** A consumer removed while it holds a record takes the record with it, and the entry is trimmed
  unacknowledged (`DroppedRecordIsTrimmed`). The worker looks at the number of records first and removes the consumer
  in a second call.
- **Payload size.** The consumer's limit of 32768 bytes is on the escaped JSON text, so a text within the limit of 4096
  characters can be refused (`FullForeignTextsDoNotFit`); what the producer builds today fits (`ProducedFits`).
- **Late notice.** A first stage that was enqueued as a delayed notice and is stale at the send gets the notice's heading
  a second time (`NoticeKeepsContext`).

## Model

| member | source | states |
|---|---|---|
| Matcher.CustomTriggerMatcher.Match | alert_bot_project/worker/custom_matcher.py:52-69 | a phrase is answered if and only if it has an occurrence that the one-keyword boundary pattern accepts; the answer is ascending; the failure links followed are those of the text, at most one per character |
| Matcher.TextLinksBound | alert_bot_project/worker/custom_matcher.py:55-58 | whatever trie with shallower failure links a text is read on: the links followed are at most its length plus the depth of the node it is read from |
| Matcher.CustomTriggerMatcher.Build | alert_bot_project/worker/custom_matcher.py:24-50 | for every set of non-empty phrases the built object is a correct automaton of exactly that set: a trie, each failure link the longest proper suffix in the trie, each output list all phrases that are suffixes of its node |
| Matcher.CustomTriggerMatcher.GetMatches | alert_bot_project/worker/custom_matcher.py:71-81 | rebuilds exactly when the version differs, refuses over 5000 phrases and then changes nothing, and answers naive matching of the phrase set it holds afterwards |
| LinearizableMatcher.Linearizable | alert_bot_project/worker/custom_matcher.py:71-81 | with any number of concurrent calls and cache writes, each answer is naive matching against the phrase set of an instant between that call's version read and its answer |
| TriggerCache.AddOnlyNeverLoses | alert_bot_project/worker/main.py:148-165 | in every add-only run, whatever reconciliations race with the additions: a phrase that is no built-in key, that the database has if the cache does, and on which no swap that could still succeed disagrees, never leaves the cache, and is in it once its addition has completed |
| TriggerCache.CompletedSurvivesIff | alert_bot_project/services/user_service.py:71-79 | from a quiet start a completed addition of a phrase survives every add-only run if and only if the phrase is no built-in key and the cache did not hold it without the database |
| TriggerCache.LosingRun | alert_bot_project/worker/main.py:148-165 | the run that loses a completed addition of a stale cached phrase, added between snapshot and swap |
| TriggerCache.LosingStaticRun | alert_bot_project/worker/main.py:152-154 | the run that loses a completed addition of a built-in key: the snapshot leaves it out |
| DeliveryTheorems.KeepStep | alert_bot_project/worker/broadcaster.py:334-525 | every step of every process keeps the delivery invariant, also beside a deletion whose lock has lapsed and when a reservation is given back late |
| DeliveryTheorems.NoJobLost | alert_bot_project/worker/broadcaster.py:62-112 | in every reachable state each accepted job is delayed, unread, pending, or closed for a reason that holds; privacy is such a reason if the generation is gone or a profile operation ran beside a deletion |
| DeliveryTheorems.ClosedCurrentJob | alert_bot_project/worker/broadcaster.py:350-471 | a closed job of the present generation was marked, is over a week old, or its stage had been sent, unless a profile operation of the recipient ran beside a deletion of his |
| DeliveryTheorems.NeverSentAfterMark | alert_bot_project/worker/broadcaster.py:432-448 | once a job is marked, no send of it ever begins again, not even after mark and enqueue marker have expired, for every recipient without such an overlap |
| DeliveryTheorems.SendsAlone | alert_bot_project/worker/delivery_lease.py:37-83 | when a send begins, no other operation of that stage is active |
| DeliveryCauses.MarkHasCause | alert_bot_project/worker/broadcaster.py:350-471 | every mark that is written has its cause in an earlier step of the operation. Sent: Telegram accepted the message. Skipped: an all-clear, a live skipped mark of the stage before, daytime or a mute, a post too old at the recheck. Failed: a live failed mark of the stage before, a blocked recipient, a permanent refusal, the fifth counted failure |
| DeliveryCauses.CauseSettles | alert_bot_project/worker/broadcaster.py:350-471 | and every cause leads there: an operation that finds one settles its entry accordingly in its next step, unless it was cancelled or displaced |
| DeliveryCauses.RequeuedWithoutMark | alert_bot_project/worker/broadcaster.py:398-404 | a repeat that finds no live mark of the stage before goes back to the delayed set for ten seconds and is acknowledged; nothing else changes |
| DeliveryCauses.BeginSaw | alert_bot_project/worker/broadcaster.py:239-410 | before a send begins the operation has found, in this order: its generation, no deletion, an age of at most a week, no sent mark; for a repeat no all-clear, the stage before sent, night and no mute; no block, a slot, its own entry and lease, and a post fresh enough |
| DeliveryCauses.FiveFailures | alert_bot_project/worker/broadcaster.py:315-332 | an entry that is dead-lettered for its failures has been counted at least five times |
| DeliveryTheorems.DoubleSendNeedsLoss | alert_bot_project/worker/broadcaster.py:432-448 | if Telegram accepted a message and a send of the same job begins again, the first sender crashed, was cancelled or lost its lease in between; for a recipient without an overlap |
| DeliveryOnce.StageSentAgain | alert_bot_project/worker/broadcaster.py:432-448 | a stage that Telegram accepted is sent again, under whichever generation, only if the first sender lost its hold in between or the recipient was fenced after the first send began |
| DeliveryChain.MarkStays | alert_bot_project/worker/broadcaster.py:432-471 | the recorded mark of a job has the same value at every later state in which the job's generation is the recipient's, if there was no overlap |
| DeliveryChain.RedisMarkStays | alert_bot_project/worker/broadcaster.py:467-471 | while an event has been accepted under one generation only and that is the recipient's, no live mark of its stages is overwritten or dropped: value and expiry stay; if there was no overlap |
| DeliveryAcceptance.StageChain | alert_bot_project/worker/broadcaster.py:368-471 | if no live mark says that stage 1 or 2 was sent when a generation first accepts an event, a stage of that generation starts only after each earlier one was marked sent under it; for a recipient without an overlap or a late return |
| DeliveryAcceptance.SkippedOrFailedIsLast | alert_bot_project/worker/broadcaster.py:411-471 | under the same conditions, once a stage is marked skipped or failed, no later stage of that event and generation ever begins |
| DeliveryAcceptance.OneGenerationChain | alert_bot_project/worker/broadcaster.py:368-471 | for an event accepted under one generation only, the chain holds without that condition |
| DeliveryLeftover.GapBreaksChain | alert_bot_project/worker/broadcaster.py:389-410 | from every reachable fresh acceptance at which stage 1 or 2 has a live sent mark and the stage after it has none, the run can go on so that the stage after it is sent although no stage of the new generation was |
| DeliveryLeftover.FirstMarkLeft | alert_bot_project/services/privacy.py:115-118 | such an acceptance is reached with only stage 1's mark left over: stage 2 begins although stage 1 of its generation was never sent |
| DeliveryLeftover.SecondMarkLeft | alert_bot_project/services/privacy.py:115-118 | and with only stage 2's mark left over: stage 3 begins although neither earlier stage of its generation was ever sent |
| DeliveryTheorems.FencedForever | alert_bot_project/services/privacy.py:98-111 | after a fence no send ever begins for a job of a generation used before, also after re-registration; in every run |
| DeliveryTheorems.CounterCoversSends | alert_bot_project/services/privacy.py:22-34 | the in-flight counter is never below the number of reservations still within their life, for a recipient none of whose reservations was given back after its life |
| DeliveryCounter.CounterBound | alert_bot_project/services/privacy.py:22-34 | the in-flight counter is at most the number of reservations still to be given back, so it reads zero once they all are |
| DeliveryTheorems.NothingInFlight | alert_bot_project/services/privacy.py:104-111 | after the wait loop sees zero and until registration, no send is under way within its budget and none begins; for a recipient without an overlap or a late return |
| DeliveryTheorems.LeaseExclusion | alert_bot_project/worker/delivery_lease.py:10-22 | two tokens do not renew one stage within 90000 ms unless the first was released in between |
| DeliveryScrub.ScrubLeavesNone | alert_bot_project/services/privacy.py:75-95 | however the scan's pages and deletions interleave with every other process, when it is over no entry of the recipient is in the stream, and none gets there until he registers again |
| DeliveryTheorems.OverlappedIff | alert_bot_project/services/privacy.py:49-72 | the recipients excluded are exactly those for whom a registration or another deletion began while one of theirs was running, which a deletion can tell from its lock |
| DeliveryLimits.OverlapAcceptsTwice | alert_bot_project/services/privacy.py:49-72 | a run with a registration inside a deletion: the post is accepted twice under one generation at one instant |
| DeliveryLimits.OverlapLosesJob | alert_bot_project/services/privacy.py:75-95 | such a run in which the scrub takes an accepted first stage of the present generation |
| DeliveryLimits.LateReturnUncovers | alert_bot_project/services/privacy.py:30-34 | a run in which a reservation given back after 600 s clears the counter of another send: the deletion sees zero while that send is under way |
| DeliverOne.Broadcaster.DeliverOne | alert_bot_project/worker/broadcaster.py:334-465 | the commands it sends are exactly those of a trace of the operation's steps, each with the keys it found and left, and no others; it is cut off only after as many steps as it was given, and otherwise the operation is over |
| DeliverOne.SettlesForCause | alert_bot_project/worker/broadcaster.py:334-465 | in a trace of the routine a settling command comes right after the step that found its cause, and only then |
| DeliverOne.StepIsAct | alert_bot_project/worker/broadcaster.py:334-465 | in the system each step of such a trace is an act of the operation, wherever the keys and the operation are as it found them |
| DeliveryOnce.EnqueuedOnce | alert_bot_project/worker/broadcaster.py:62-74 | in any run two acceptances of one event for one generation are at least the 30-day horizon apart, for a recipient without an overlap |
| DeliveryScripts.PopIsAct | alert_bot_project/worker/broadcaster.py:78-93 | moving due jobs in the system does to the keys what the script does |
| DeliveryOnce.AcceptedExactlyOnce | alert_bot_project/worker/main.py:464-492 | an unmarked event offered at least once under the recipient's generation within the horizon, with no fence and no overlap: of all the offers of all workers exactly one is accepted |
| FanOut.Worker.FanOut | alert_bot_project/worker/main.py:464-492 | when it completes, the commands it has sent are one generation read and one enqueue script for each user it visited, in ascending order and no others; it visited every user who was eligible at the start and only users who are, in terms of table, mute, categories and words, and then acknowledged; it ends otherwise only when its commands or the database's answers run out |
| FanOutRun.PassAcceptsOnce | alert_bot_project/worker/main.py:464-492 | a completed pass anywhere in a run: for each user it visited who was not marked and is neither fenced nor overlapped, exactly one acceptance within the horizon |
| FanOutReplay.ReplayGivesOne | alert_bot_project/worker/main.py:464-492 | any number of passes within the horizon, each over its own list and each possibly cut off: exactly one new first-stage job for an unmarked recipient whom some pass reached and who is not deleted, none otherwise |
| Ingestion.NothingLost | alert_bot_project/scraper/catchup.py:36-61 | in every reachable state every post above the bootstrap point and up to the checkpoint that had a text of at most 4096 characters, and a date at most five minutes ahead, when it appeared, is in the outbox or published |
| Ingestion.SafeForever | alert_bot_project/scraper/outbox.py:31-79 | a stored post stays stored or published for ever; the checkpoint never moves back |
| Ingestion.NothingDoubled | alert_bot_project/scraper/publisher.py:13-18 | two stream entries of one post are at least the marker's life apart |
| Scraper.Scraper.CatchUp | alert_bot_project/scraper/catchup.py:24-61 | under any interleaving: after a completed scan the checkpoint is at or past the newest post seen and every valid post the scan was after is safe; it has put every such post that met the contract when it began, none that did not meet it or lies at or below where it stops, and answers their number; it gives up, leaving the checkpoint, only if the process dies or a post has no date |
| Scraper.Scraper.HandleChannelPost | alert_bot_project/scraper/main.py:52-98 | the post is put and committed if and only if it meets the contract at the clock it was checked by, the process lives and the commit succeeds; then it is safe, and in the stream if a publish was reported; otherwise three attempts were made or the process died |
| RateLimiter.WaitIsExact | alert_bot_project/worker/rate_limit.py:14-15 | the wait answered equals that of a limiter which forgets only by deletion of a chat's key: that instant is free with respect to the past grants and pauses it keeps and no earlier one is |
| RateLimiter.GrantsSpaced | alert_bot_project/worker/rate_limit.py:7-20 | grants are 50 ms apart, 200 ms among repeats, and 1000 ms within a chat between two deletions of its key |
| RateLimiter.ChatSpacing | alert_bot_project/worker/rate_limit.py:7-20 | two grants to one chat are 1000 ms apart if no deletion of its key falls between |
| RateLimiter.DeletionBreaksChatSpacing | alert_bot_project/services/privacy.py:115 | a deletion between two grants to one chat: they are 50 ms apart |
| RateLimiter.WindowBound | alert_bot_project/worker/rate_limit.py:7-20 | any window of W ms holds at most W / 50 + 1 grants |
| RateLimiter.NoGrantInPause | alert_bot_project/worker/rate_limit.py:22-29 | no grant falls within the seconds asked for, nor within the first second, of an earlier pause |
| RateLimiter.WaitHasReason | alert_bot_project/worker/rate_limit.py:7-29 | a wait is due to a grant that is not far enough back or to a pause whose seconds, at least one, are not over |
| StreamRetention.TrimTakesFinished | alert_bot_project/worker/stream_retention.py:5-33 | in terms of what was given, acknowledged and dropped: a trim takes an entry if and only if there is a group and every group was given something later and is through with everything up to that entry |
| StreamRetention.EntryLeavesSafely | alert_bot_project/worker/stream_retention.py:5-33 | in any run an entry leaves only by explicit removal, or by a trim after every group was given it and acknowledged it or dropped its record with a consumer |
| StreamRetention.DroppedRecordIsTrimmed | alert_bot_project/worker/main.py:128-145 | a run in which a consumer is removed while it holds a record: the entry is trimmed unacknowledged |
| StreamRetention.StreamKey.TrimAcknowledged | alert_bot_project/worker/stream_retention.py:5-33 | the running minimum over the groups removes exactly the entries every group has passed |
| AlarmPoller.BoundIff | alert_bot_project/services/ukrainealarm.py:239-260 | for every pair of bounds on the two delays, all values end before a limit if and only if the limit leaves 135 s and both delays; a refresh's delay counts up to the key's life |
| AlarmPoller.Staleness | alert_bot_project/services/ukrainealarm.py:239-260 | a polled value ends less than 135 s after it was read, plus the poll's and the refresh's own delays |
| AlarmPollers.ExtendedByAnother | alert_bot_project/services/ukrainealarm.py:239-260 | in any run of any number of pollers a failsafe value is extended only by another than its writer, which had a success less than 45 s before it decided to |
| AlarmPollers.FailsafeBound | alert_bot_project/services/ukrainealarm.py:302-313 | in any run a failsafe value ends 90 s after its write, or less than 135 s and the longest refresh delay after some poller's last success |
| AlarmPollers.FailsafeExtended | alert_bot_project/services/ukrainealarm.py:302-313 | the run of two pollers in which the failsafe value of the one is extended by the other although there is no alarm |
| Identity.EventIdInjective | alert_bot_project/worker/broadcaster.py:187 | the printed event identity is injective over all integers |
| Identity.StageIdInjective | alert_bot_project/worker/broadcaster.py:368 | so is the stage identity |
| Identity.StagePatternExact | alert_bot_project/services/privacy.py:115-117 | the deletion's pattern for stage marks matches exactly the recipient's own |
| Identity.EventPatternExact | alert_bot_project/services/privacy.py:116 | so does its pattern for enqueue markers |
| DeliveryContract.ProducedPasses | alert_bot_project/worker/broadcaster.py:203-214 | a produced payload passes the consumer's contract if and only if its fields are within the limits and its JSON text is within 32768 bytes, and then arrives unchanged |
| DeliveryContract.AcceptedIsProducible | alert_bot_project/worker/delivery_contract.py:48-107 | every payload that passes and has a source is within 32768 bytes and one that the producer could have written, with the identity of its source, message and recipient |
| DeliveryContract.OlderKind | alert_bot_project/worker/delivery_contract.py:78-89 | a payload without a source chat has no source message either, and without an identity it is a first stage |
| DeliveryContract.FullForeignTextsDoNotFit | alert_bot_project/worker/delivery_contract.py:101-103 | a text and locations of full length in another alphabet are within the field limits and refused |
| Matcher.CustomTriggerMatcher.LinkFailures | alert_bot_project/worker/custom_matcher.py:41-50 | the breadth-first pass turns any unlinked trie into a correct automaton |
| Matcher.CustomTriggerMatcher.FindFallback | alert_bot_project/worker/custom_matcher.py:45-48 | following failure links and one edge finds the longest suffix of the child's proper tail that is in the trie, and that node has been linked before |
| Matcher.CustomTriggerMatcher.Step | alert_bot_project/worker/custom_matcher.py:56-58 | one character keeps the node the longest trie suffix of the text read, and follows exactly the links up to the first node that has its edge |
| Matcher.CustomTriggerMatcher.AtBoundary | alert_bot_project/worker/custom_matcher.py:60-67 | the two scans decide exactly whether the boundary pattern accepts the occurrence |
| Matcher.SuffixDecided | alert_bot_project/core_shared/text_processor.py:23 | the bounded scan agrees with `\w{0,3}(?![\w])` with its backtracking |
| Strings.AscendingUnique | alert_bot_project/worker/custom_matcher.py:69 | an ascending duplicate-free list is determined by its members, so the sorted answer is unique |
| LinearizableMatcher.VersionsOrdered | alert_bot_project/core_shared/trigger_cache.py:5-27 | along a run versions never go back, and equal versions mean equal caches |
| TriggerCache.Reconcile | alert_bot_project/core_shared/trigger_cache.py:11-27 | -1 leaves the cache alone and only on a version mismatch; 0 and 1 leave it equal to the snapshot; the version moves exactly when membership does |
| TriggerCache.SameMembers | alert_bot_project/core_shared/trigger_cache.py:13-21 | the count-and-lookup comparison decides set equality |
| TriggerCache.TriggerKeys.ReconcileTriggers | alert_bot_project/core_shared/trigger_cache.py:11-27 | the keys changed in place refine `Reconcile` |
| TriggerCache.ChangeMovesVersion | alert_bot_project/core_shared/trigger_cache.py:5-27 | any script run moves the version up exactly when it changes the set |
| DeliveryRedis.Server.EnqueueAlert | alert_bot_project/worker/broadcaster.py:62-74 | the enqueue script adds entry, delayed jobs and marker, or nothing |
| DeliveryRedis.Server.PopMatureTasks | alert_bot_project/worker/broadcaster.py:78-93 | the due members of least score leave the delayed set and no others; each of a registered recipient's present generation becomes one new entry, in their order, the others none; old entries stay |
| DeliveryRedis.Server.StoreDlq | alert_bot_project/worker/broadcaster.py:95-112 | dead letter and failed mark only for an allowed recipient; acknowledged and retry key dropped always |
| DeliveryRedis.Server.BeginDelivery | alert_bot_project/services/privacy.py:22-28 | a reservation counts up and renews the counter's life only for the present generation of a recipient not deleted |
| DeliveryRedis.Server.EndDelivery | alert_bot_project/services/privacy.py:30-34 | counts down, or clears the counter at one, keeping its expiry |
| DeliveryRedis.Server.RenewDelivery | alert_bot_project/worker/delivery_lease.py:10-18 | renews for the consumer owning the pending entry if the lease is free or its own |
| DeliveryRedis.Server.ReleaseDelivery | alert_bot_project/worker/delivery_lease.py:19-22 | frees the lease for its own token and no other token's lease |
| DeliveryRedis.Server.ScrubRecipient | alert_bot_project/services/privacy.py:75-95 | with no other process in between: the cursor loop ends and removes exactly the recipient's entries, pending records and retry keys, whatever the number of pages |
| DeliverOne.Broadcaster.CheckRecipient | alert_bot_project/worker/broadcaster.py:350-370 | the generation, deletion, age and own-mark exits, by the same log |
| DeliverOne.Broadcaster.CheckRepeat | alert_bot_project/worker/broadcaster.py:371-410 | the all-clear, previous-stage, night and mute exits of a repeat, by the same log |
| DeliverOne.Broadcaster.Send | alert_bot_project/worker/broadcaster.py:262-306 | reservation, send, and settlement by outcome, by the same log |
| DeliverOne.Broadcaster.FinishFailedJob | alert_bot_project/worker/broadcaster.py:315-332 | the fifth failure is dead-lettered, earlier ones leave the entry pending, by the same log |
| DeliverOne.StepIsLocal | alert_bot_project/worker/broadcaster.py:334-465 | an operation's step depends only on the keys and its own state, so its steps are those of the system |
| DeliveryTheorems.ChainStep | alert_bot_project/worker/broadcaster.py:389-404 | a send of stage k + 1 begins only after stage k was marked sent |
| DeliveryTheorems.GenerationStaysNew | alert_bot_project/services/privacy.py:98-103 | a fenced recipient never gets back a generation used before |
| DeliveryOnce.MarkerMeansAccepted | alert_bot_project/worker/broadcaster.py:62-74 | a refusal by the marker means the event's first-stage job had been accepted |
| FanOut.GetTargetUserIdsPage | alert_bot_project/database/crud.py:104-134 | the least ids above the cursor of exactly the users who are known, have no mute or one that ended, share a category with the post, and, if it names words, have one of them as a trigger; no categories answer the empty page before the size check; a bad size is refused |
| FanOut.TargetsGrow | alert_bot_project/database/crud.py:118-121 | with a fixed table the matching users only grow as mutes run out between pages |
| FanOut.Worker.DispatchAlerts | alert_bot_project/worker/main.py:373-392 | the commands sent are one offering per recipient of the page in order, or of those before the process died |
| FanOut.Worker.HandleDbFailure | alert_bot_project/worker/main.py:250-260 | five failures leave the entry pending, the sixth dead-letters and acknowledges; the count starts anew an hour after the last |
| Paging.PageAdvances | alert_bot_project/database/crud.py:130-134 | a page moves the cursor past exactly its own keys, and a short page is the last |
| Ingestion.PublishesIff | alert_bot_project/scraper/publisher.py:13-18 | publishing adds an entry if and only if the post was not published within the marker's life |
| Scraper.ScanCovers | alert_bot_project/scraper/catchup.py:39-60 | what a scan has collected when it stops entitles it to move the checkpoint |
| Scraper.Scraper.PublishAndDelete | alert_bot_project/scraper/main.py:78-85 | one publish and, only after it was reported, one delete; then the post is in the stream |
| Scraper.Scraper.ReplayOutbox | alert_bot_project/scraper/main.py:101-110 | the first 100 rows in key order, each published and then deleted; it stops only at a row whose attempt failed or when the process dies, and leaves that row safe |
| Scraper.Scraper.PendingRows | alert_bot_project/scraper/outbox.py:39-46 | the least rows in (chat, message) order |
| Scraper.Scraper.PublishMessage | alert_bot_project/scraper/publisher.py:41-67 | an entry and a marker of 30 days if the script is reached and no marker is live, nothing otherwise |
| RateLimiter.TelegramRateLimiter.AcquireSlot | alert_bot_project/worker/rate_limit.py:7-20 | the slot keys changed in place refine the grant step |
| AlarmPoller.AlarmStatePoller.PollOnce | alert_bot_project/services/ukrainealarm.py:239-260 | a refresh extends only a polled value, and that value is the API's state at the index just read |
| AlarmPoller.AlarmStatePoller.MaybeFailsafe | alert_bot_project/services/ukrainealarm.py:302-313 | the failsafe value is written only after 180 s without success |
| Identity.ParseInverts | alert_bot_project/worker/delivery_contract.py:43-44 | reading a printed integer gives it back |
| DeliveryContract.ChatIdExact | alert_bot_project/worker/delivery_contract.py:39-47 | as text exactly the printed non-zero integers in range are accepted, and reading inverts printing |
| DeliveryContract.LenientTextsRefused | alert_bot_project/worker/delivery_contract.py:43 | signs, spaces, leading zeros and underscores are refused although they parse |
| DeliveryContract.UniqueObject | alert_bot_project/worker/delivery_contract.py:92-98 | a repeated member is refused, otherwise the dictionary holds exactly the pairs |
| DeliveryContract.ContentExact | alert_bot_project/worker/delivery_contract.py:110-122 | exactly which jobs are withheld before the send; a stale first stage goes out only as a silent notice within the text limit |
| DeliveryOnce.ResendNeedsFence | alert_bot_project/services/privacy.py:98-103 | two sends of one stage under different generations have a fence of the recipient between them |
| Scraper.UnstoredStaysWanted | alert_bot_project/scraper/catchup.py:24-38 | a valid post beyond the bootstrap point that no handler stored lies beyond the checkpoint, so the next scan is after it |
| RateLimiter.ForgetsNothing | alert_bot_project/worker/rate_limit.py:14-15 | for a chat whose key was never deleted, the exact wait counts every grant |
| StreamRetention.EmptyConsumersDropNothing | alert_bot_project/worker/main.py:137-145 | nothing is ever dropped if every consumer has no record when it is removed |
| AlarmPoller.LatestValue | alert_bot_project/services/ukrainealarm.py:239-260 | the state that attains the bound, for every pair of delays, with no interval between two polls |
| AlarmPoller.SlowWriteExceedsBound | alert_bot_project/services/ukrainealarm.py:232-235 | a value whose write lands 50 s after its poll is visible past 135 s without any refresh |
| DeliveryContract.ProducedFits | alert_bot_project/worker/delivery_contract.py:101-103 | within the field limits, with plain location keys and at most 500 characters beyond the basic plane in the text, it is within them |
| DeliveryContract.NoticeKeepsContext | alert_bot_project/worker/delivery_contract.py:117-121 | the notice replaces a first alert's heading and keeps its context; made from a text that was a notice already it has the notice's heading twice |
| DeliveryExtend.EntryReaches | alert_bot_project/worker/broadcaster.py:334-465 | from every reachable state an unread entry that may be sent can be taken to its reservation, whatever else is queued, leased or under way |
| FanOutRun.OfferIsAct | alert_bot_project/worker/broadcaster.py:62-74 | a logged offer is an enqueue act of the system, wherever the keys are as it found them |
| DeliveryCauses.CounterCounts | alert_bot_project/worker/broadcaster.py:315-332 | the retry counter is the number of failures counted since it was last dropped |
| DeliveryCauses.SettlementKeys | alert_bot_project/worker/broadcaster.py:95-112 | what each settling command does to the keys, in milliseconds and key by key |
| FanOut.EventForInjective | alert_bot_project/worker/broadcaster.py:187 | different posts or users have different events |

## Left out

- DeliveryAcceptance.StageChain: requires that no mark of stage 1 or 2 is left when the event is accepted, and no overlap or late return for the recipient, for the reasons given above.
- DeliveryTheorems.NothingInFlight: leaves out recipients with an overlap or a late return, because it is false for them.
- DeliveryTheorems.DoubleSendNeedsLoss: speaks of one generation; for any generation `DeliveryOnce.StageSentAgain` says what lies between. That a fresh registration may get the same post again is what the source intends.
- AlarmPoller.Staleness: adds the poll's and the refresh's own delays to 135 s, because the bare bound is false; `BoundIff` shows that no less will do.
- FanOutReplay.ReplayGivesOne: nothing else touches the keys between the passes; `DeliveryOnce.AcceptedExactlyOnce` is the statement under any interleaving.
- DeliveryRedis.Server.ScrubRecipient: the scan as if alone, where it ends and is exact; under any interleaving `DeliveryScrub.ScrubLeavesNone` says what it leaves if it ends.
- Scraper.Scraper.CatchUp: history is what the channel held when the scan began, and posts are never edited or withdrawn.
- Legacy delivery payloads without identity, source time or generation, and payloads that do not parse: they have no stage to reason about.
- The delivery dead-letter stream's own scrub, which is the same loop without acknowledgements.
- The retry loops of the rate limiter's `acquire` and of the stream consumers: they repeat the steps modelled here until stopped.
- The commands of `user_privacy_lock` itself; profile operations may begin at any time, with or without it.
- Trimming is part of the delivery system for its single group; `StreamRetention` treats any number of groups.
- `_resolve_trigger_words`, all-clear recording and the night check: short computations without a property of a run.
- The target cache and its lock, which the main flow does not use.
- Text classification, keyword lexicons, HTML escaping, log redaction, metrics, configuration, migrations, bot handlers and keyboards.
- Physical absence of every trace after deletion: a late requeue can add a job back, which is later dropped.
