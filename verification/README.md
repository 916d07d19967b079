# FluxMeter: custody, budgets, pricing and aggregation

A Dafny 4.11 model of the four cores of FluxMeter and proofs of what they promise. `dafny verify
dfyconfig.toml` checks all of it.

**Token Event Custody.** An event identity is absent, pending, uncertain or accepted under a payload
fingerprint. `IdentityStore` runs the claim, transition and release scripts on the hash and expiry
set, and the sharded batch claim that must equal a sequential one. `BatchCustody` and
`CustodyService` run accept and accept_many and compare a batch with accepting its events in turn.
`DeliveryRace` interleaves the waiting thread of a single publication with its delivery callback, and
`BatchDelivery` the sending and waiting thread of a batch with the callbacks of its messages: the
outcome cells, the common deadline, the slots; `DeliveryRefinement` and `BatchRefinement` show that
what they do with a publication is a run of the protocol. `CustodyProtocol` interleaves any number of
requests for one identity with the broker, late reconciliation, Redis failures, expiry and the outbox;
`Outbox` is the outbox itself. `CustodyBatcher` and `BatcherProtocol` are the asynchronous batcher: its
flush, and its queue and worker over every schedule.

**Budgets.** `BudgetLedger` performs the reservation scripts, the budget part of the window sink,
configure, top-up and the reconciliation job on exact money. `BudgetConservation` proves, over runs
of all of them, exactly when what is held is what is open, and that covered windows never overspend.
`BudgetLaws` proves the ledger law, exactly when each alert fires and that it does so once, and what
capped spans hold; `SpanCaps` that no open takes one above its cap.

**Pricing.** `Pricing` runs the tier loop with an explicit rounding function and relates it to a
price per token; `PricingLaws` bounds the rounding error and the number of chunks, and characterizes
the catalogs the loader accepts. `VolumeMeter` is the monthly meter and its stamps.

**Streams and aggregation.** `StreamGuard.dfy` and `StreamLaws` are the stream guard,
`UsageAggregation` the deduplicating window aggregate, `UsageSink` the counters of the two sinks
under replays, `Keys` the key encoders and their parser.

## What turned out not to hold

Each of these is proved with the exact condition under which the code does meet the property:

- `close` of the batcher does not drain: once closed, the worker returns after the batch in hand. It
  drains under every schedule exactly when nothing is queued behind that batch, or at most one request
  before an idle worker. And it can hang: exactly when it is called on a full queue while the worker
  has a batch in hand.
- A second acknowledgement for one identity is possible as soon as identities expire, events are
  batched, or payloads are buffered in the outbox; without all three it is not.
- The outcome a batch returns for a message is not the broker's word exactly when the message timed
  out and no error was recorded over the uncertain outcome; when one was, the failure is handled by the
  caller and by late reconciliation.
- An accepted identity keeps its backing exactly when at most one payload per id is ever buffered, or
  identities neither expire nor are batched.
- A batch repeats `quarantined` for a repeated event where a later accept says `accepted`, and says
  conflict for a reused id that the store knows with the later payload; everywhere else they agree.
- Held amounts are what is open throughout a run exactly when every close has its record's own held
  key, every window ends holds of its own budget and no budget is reconfigured over open holds. Closes
  have the right key when no id is opened while a close of it is in flight with other keys.
- A capped span stays right exactly when, besides, its cap is set or dropped only while nothing is open
  under it and closes take off the span of the record they find.
- The reconciliation job looks only at budgets without tenant, and its drift is the debt exactly when
  the id it cuts from the key is the whole id, that is, holds no colon. Its result lists all it found
  exactly when that is at most a hundred.
- Merging aggregates is adding their events exactly when they share no id and the other side names no
  tenant or the same.
- A rollup is one tenant's exactly when no first delivery of another tenant adds to it.
- Aggregation keys parse back exactly when no id holds a bar. A Redis key of any kind is another
  resource's too exactly when it can be cut at another mark, or for another kind, that has its field.
  So without a tenant only customers, models and monthly volumes share keys; with one, a tenant
  "a:span:b" prints its customers' usage under keys of tenant "a", which the span sink overwrites.
- An event of another month, however late, makes the monthly volume start over: a stamp is the total of
  the run of immediately preceding events of its own month.
- Running out is reported by every window that charges a budget and leaves it nothing.

## Model

| member | source | states |
|---|---|---|
| `IdentityStore.RawClaimIsLiveClaim` | api/ingestion.py:407-442 | on live identities the claim script is a plain sequential claim, whatever expired entries are still in the bucket |
| `IdentityStore.CleanupIsInvisible` | api/ingestion.py:408-412 | the bounded cleanup of expired fields never changes what is live |
| `IdentityStore.AcceptedIsFinal` | api/ingestion.py:444-485 | transition and release scripts never change or remove an accepted identity, and never change a fingerprint |
| `IdentityStore.ClaimKeepsLiveEntries` | api/ingestion.py:413-438 | a claim leaves every live identity unchanged |
| `IdentityStore.BucketLocality` | api/ingestion.py:505-512 | claiming only the members of one shard bucket gives them the answers, and the bucket the content, that claiming the whole list in order would give |
| `IdentityStore.Buckets.ClaimScript` | api/ingestion.py:407-442 | hash and expiry set keep the same domain; the new content and the answers are those of the raw sequential claim after the cleanup |
| `IdentityStore.Buckets.ClaimField` | api/ingestion.py:415-437 | one turn of the claim loop: expired entries count as absent, and the five answers are given exactly in their cases |
| `IdentityStore.VerdictByStatus` | api/ingestion.py:424-437 | owner exactly where nothing is stored, conflict exactly on another fingerprint, else same, pending or uncertain exactly by the stored status |
| `IdentityStore.RawClaimOwns` | api/ingestion.py:418-426 | a claim owns a field exactly when it is absent or expired, and only then writes it, pending and with the new expiry |
| `IdentityStore.LiveIsUnexpired` | api/ingestion.py:418-422 | live is exactly what has not expired |
| `IdentityStore.FinalizeAt` | api/ingestion.py:453-464 | a transition to accepted leaves each entry it names under its fingerprint accepted, whatever its status was, and every other entry as it was |
| `IdentityStore.MarkAt` | api/ingestion.py:453-464 | a transition to uncertain takes only the pending entries it names |
| `IdentityStore.FinalizeMatches` | api/ingestion.py:454-464 | a transition to accepted counts every item that is there under its fingerprint, and all of them exactly when all are |
| `IdentityStore.MarkMatches` | api/ingestion.py:454-464 | a transition to uncertain counts the items that are there under their fingerprint, but for accepted ones |
| `IdentityStore.ReleaseAt` | api/ingestion.py:471-485 | a release drops exactly the pending and uncertain entries it names under their fingerprint |
| `IdentityStore.ClaimAt` | api/ingestion.py:413-427 | a list of claims leaves under an absent name a pending entry with the fingerprint of the first item that has it |
| `IdentityStore.ClaimAnswerAt` | api/ingestion.py:413-438 | the answers of a list of claims: the stored entry decides, else the first item of a name owns it and later ones find it pending or conflict |
| `IdentityStore.Buckets.TransitionScript` | api/ingestion.py:444-469 | entry by entry: to accepted, all named entries under their fingerprint, pending or uncertain, become accepted and every named one that is there is counted; to uncertain, the pending ones; all others stay and the two keys keep one domain |
| `IdentityStore.Buckets.ReleaseScript` | api/ingestion.py:471-485 | removes exactly the pending and uncertain entries that are named under their fingerprint, leaves every other, and counts them |
| `IdentityStore.Buckets.GroupIdentities` | api/ingestion.py:505-512 | every identity lands once in its own bucket's group, in the order of the list |
| `IdentityStore.Buckets.StatusBatch` | api/ingestion.py:515-541 | answers by index and the live view equal claiming the identities one at a time in order, duplicates included, whatever the cleanups removed |
| `IdentityStore.Buckets.ClaimBucket` | api/ingestion.py:527-537 | one script call brings its bucket to what the whole list gives it and leaves the other buckets alone |
| `IdentityStore.Buckets.ScatterAnswers` | api/ingestion.py:538-541 | the answers of all groups, scattered by index, are the answers of the whole list |
| `BatchCustody.BatchIsOneByOne` | api/ingestion.py:977-1158 | with every publication acknowledged a batch publishes the same messages in the same order and leaves the same live identities as accepting its events in turn; the answers agree exactly outside two named cases |
| `BatchCustody.BatchLeavesOneView` | api/ingestion.py:1117-1154 | what a batch is said to leave determines every live identity |
| `BatchCustody.AcceptAllView` | api/ingestion.py:844-974 | after accepting events in turn an identity is what it was, or accepted with the first event's fingerprint |
| `BatchCustody.AcceptAnswers` | api/ingestion.py:871-974 | each of the nine outcomes of one accept with what must be stored, published and answered for it; an owner alone sends, one message: the event, quarantined exactly when suspicious |
| `BatchCustody.AcceptLeaves` | api/ingestion.py:904-974 | only an owner's identity changes; how far its publication and calls came decides its status, its fingerprint is the event's, and its expiry that of the status |
| `BatchCustody.BatchAnswers` | api/ingestion.py:998-1152 | each answer of a batch at each index with what must be stored and how the first event of its id ended; new answers only for owned events, with their own suspicion |
| `BatchCustody.NewIsInItsTopic` | api/ingestion.py:1064-1071 | an event answered as new is sent once, to the quarantine topic exactly when the answer says quarantined |
| `BatchCustody.Deduplicate` | api/ingestion.py:998-1012 | first events become leaders, equal repeats their aliases, repeats with another payload a conflict row; nothing else is filled |
| `BatchCustody.AnswerLeader` | api/ingestion.py:1019-1042 | a leader and its aliases get the answers they should have |
| `BatchCustody.ClaimDistinctAt` | api/ingestion.py:413-438 | distinct identities are claimed independently: the verdict is the one of the old view, an absent identity becomes pending, a present one stays |
| `BatchCustody.ClaimElsewhere` | api/ingestion.py:413-438 | identities that are not claimed are untouched |
| `BatchCustody.MovedAt` | api/ingestion.py:444-469 | on distinct identities a transition moves exactly those its call reached and that may move, and leaves every other field |
| `BatchCustody.ReleasedAt` | api/ingestion.py:471-485 | on distinct identities a release removes exactly those its call reached and that may go, and leaves every other field |
| `BatchCustody.TransitionCounts` | api/ingestion.py:579-588 | when all of them may move the script counts them all, so a finalize that is answered succeeds |
| `BatchCustody.AnswersAreKept` | api/ingestion.py:1128-1154 | however publications and calls end, what is answered as accepted is stored as accepted with that payload, and an acknowledged event leaves its identity taken |
| `CustodyService.AnswerOthers` | api/ingestion.py:1018-1043 | after the claim, settled leaders and their aliases are answered and exactly the absent first events are owned |
| `CustodyService.AnswerFailures` | api/ingestion.py:1102-1126 | the outcome lists hold exactly the owned events of their kind, in order, and all but the acknowledged ones are answered |
| `CustodyService.AnswerAccepted` | api/ingestion.py:1132-1152 | acknowledged events and their aliases get accepted answers, or uncertain ones when the identities could not be finalized |
| `CustodyService.Assemble` | api/ingestion.py:1156-1158 | the check for unresolved events never fires, and every index holds the row of its own event |
| `CustodyService.EndedSlot` | api/ingestion.py:1128-1154 | finalize, mark and release, each reaching whichever buckets it did, leave an owned identity as its own outcome and the calls that reached it say |
| `CustodyService.EndedLeaves` | api/ingestion.py:1128-1154 | so the batch leaves exactly the described identities, and every other as it was, for every way the three calls end |
| `CustodyService.TokenEventCustody.ClaimItems` | api/ingestion.py:515-541 | the batch claim as seen on live identities |
| `CustodyService.TokenEventCustody.ClaimOne` | api/ingestion.py:544-549 | a single claim is one sequential step on the live identities |
| `CustodyService.TokenEventCustody.AcceptBuffered` | api/ingestion.py:916-941 | in outbox mode: answer and identities for every way the publication and the calls end, and once claimed the event is acknowledged or in the outbox, an overload that raises included |
| `CustodyService.BufferedAnswers` | api/ingestion.py:916-941 | in outbox mode new is answered exactly when acknowledged and finalized, buffered when stored otherwise, an overload raises; the identity is accepted exactly when finalize reached it without an overload |
| `CustodyService.TokenEventCustody.Accept` | api/ingestion.py:943-974 | answer and live identities of one accept step, for every way the publication and each of the three calls ends, an exception included; an owner hands over exactly one message, the event itself, to the quarantine topic exactly when it is suspicious, and no other request sends |
| `CustodyService.TokenEventCustody.ClaimLeaders` | api/ingestion.py:998-1016 | the first event of each id is claimed and everything else live is unchanged |
| `CustodyService.TokenEventCustody.EndBatch` | api/ingestion.py:1128-1154 | finalized exactly when finalize is answered or nothing was acknowledged, released exactly when the release is answered or nothing failed; the identities are left as described in every case |
| `CustodyService.TokenEventCustody.AcceptMany` | api/ingestion.py:977-1158 | every index is filled once with the answer for its own event; the messages handed over are, in order, the events of the owned indices, each quarantined exactly when its own event is suspicious, and every event answered as new is among them with the topic its answer names; each identity is left by its own outcome and calls, and the call fails exactly when something is to be released and the release is not answered |
| `CustodyProtocol.AcceptedStays` | api/ingestion.py:407-485 | only expiry ends an accepted identity; it is never downgraded and no step changes the fingerprint of an entry |
| `CustodyProtocol.CallsTakeExactlyWhen` | api/ingestion.py:444-485 | in every world: a call that remembers takes the identity to accepted, whatever its status, exactly when it has the request's fingerprint; one that frees ends it exactly when besides it is not accepted; one that marks touches only pending |
| `CustodyProtocol.ClaimTakesExactlyWhen` | api/ingestion.py:413-438 | a claim that reached an absent identity takes it, reply or not, and only a reply makes the request go on as owner |
| `CustodyProtocol.EnvelopeMovesExactlyWhen` | api/gateway/outbox.py:18-29 | storing and removing the envelope take effect as soon as they reach the outbox, reply or not |
| `CustodyProtocol.OwnerGoesOn` | api/ingestion.py:579-600 | remembering is tried until a reply comes, then answers custody exactly when the identity is accepted; a release without a reply raises |
| `CustodyProtocol.LateStepsArePossible` | api/ingestion.py:904-914 | late reconciliation of a success may be repeated and ends at any time, that of a failure is done once, each exactly when it was dispatched |
| `CustodyProtocol.WorkerStepsArePossible` | api/gateway/outbox.py:50-79 | a pass takes what the outbox holds, empties it only after an acknowledgement, and may give up at any time |
| `CustodyProtocol.CallsSettle` | api/ingestion.py:904-914 | in every plain run, a late or timely call that remembers leaves the identity accepted under the request's fingerprint, and one that frees leaves it absent |
| `CustodyProtocol.RememberedForGood` | api/ingestion.py:904-914 | what such a call remembered is accepted under that fingerprint for the rest of the run |
| `CustodyProtocol.IdleActs` | api/ingestion.py:844-974 | a request without the claim cannot publish, and changes the claim only by taking an absent identity |
| `CustodyProtocol.OwnerActs` | api/ingestion.py:904-974 | every step of the owner keeps entry, delivery and late reconciliation consistent, or gives the claim up for good |
| `CustodyProtocol.SingleOwnerAlways` | api/ingestion.py:844-974 | the ownership invariant holds over all runs of the single path without expiry |
| `CustodyProtocol.AtMostOneAcknowledgement` | api/ingestion.py:844-974 | in every interleaving at most one publication is acknowledged, an absent identity means all earlier ones failed or were never sent, and an accepted answer is true |
| `CustodyProtocol.NeverTwiceExactlyWhenPlain` | api/ingestion.py:844-1154 | a second acknowledgement is impossible exactly when identities do not expire, nothing is batched and nothing is buffered; each exposure has a witness run |
| `CustodyProtocol.TwiceInBatches` | api/ingestion.py:175-183 | a run in which a late error overwrites the returned outcome and the owner releases twice |
| `CustodyProtocol.AcceptedIsBackedExactlyWhen` | api/gateway/outbox.py:18-79 | in every setting, an accepted fingerprint is always acknowledged or in the outbox exactly when at most one payload per id is ever buffered, or identities neither expire nor are batched |
| `CustodyProtocol.SteadyAlways` | api/gateway/outbox.py:18-79 | the invariant of the settings without expiry and batches, over all runs with any payloads |
| `CustodyProtocol.SoleBufferedAlways` | api/gateway/outbox.py:18-79 | the invariant behind it, over all runs with expiry, Redis failures, retries and outbox passes |
| `CustodyProtocol.OverwrittenEnvelope` | api/gateway/outbox.py:18-29 | two payloads under one lapsed id: one stored envelope overwrites the one an accepted identity relies on |
| `CustodyProtocol.OverwrittenInBatches` | api/gateway/outbox.py:18-29 | the same without expiry: a batched owner that releases twice lets the second payload in |
| `DeliveryRace.ReconciledExactlyOnce` | api/ingestion.py:97-150 | late reconciliation is dispatched at most once, only after a timeout and with the broker's outcome, and has been once both threads are through |
| `DeliveryRace.OutcomesAreTrue` | api/ingestion.py:145-150 | what publish_and_wait reports without a timeout is what the broker said |
| `DeliveryRace.SlotsBalance` | api/ingestion.py:106-143 | slots in use never exceed the limit and each acquired slot is released exactly once |
| `DeliveryRace.WorldSoundStep` | api/ingestion.py:97-150 | the invariant of both threads and the semaphore is kept by every step of any publication |
| `BatchDelivery.BatchReconciledExactlyOnce` | api/ingestion.py:152-216 | for every message of every batch, under every interleaving, late reconciliation is dispatched at most once, only after a timeout and with the truth, and has been exactly then once both threads are through |
| `BatchDelivery.BatchSlotsBalance` | api/ingestion.py:185-200 | slots in use never exceed the limit, and a message that is through has released the slot it took, once |
| `BatchDelivery.TheCallerReadsTheBrokersWordExactlyWhen` | api/ingestion.py:175-216 | the outcome the caller reads, however late, is the broker's word exactly when the message did not time out or its error was recorded over the uncertain outcome |
| `BatchDelivery.UnsentMessagesTimeOutToo` | api/ingestion.py:185-214 | a message that was never sent is reported as uncertain and reconciled as failed exactly when its turn comes after the deadline |
| `BatchDelivery.NoSlotIsOverload` | api/ingestion.py:185-191 | a message that found no slot is overloaded until a passed deadline makes it uncertain |
| `BatchDelivery.TimeoutsAreASuffix` | api/ingestion.py:202-213 | the messages of a returned batch that timed out are the last ones of its list |
| `BatchDelivery.ARefusalIsHandledTwice` | api/ingestion.py:175-183 | a run in which the caller reads a plain failure that late reconciliation was given as well |
| `BatchRefinement.StepIsSeen` | api/ingestion.py:152-216 | every step of the batch dispatcher on a message is one named step of the custody protocol on its request, or none |
| `BatchRefinement.MessagesAreRequests` | api/ingestion.py:152-216 | so whatever the dispatcher does with a message, in any interleaving, is a run of the protocol up to where its owner acts |
| `DeliveryRefinement.StepIsSeen` | api/ingestion.py:97-150 | every step of the waiting thread or the callback on a publication is one named step of the custody protocol on its request, or none, in outbox mode too |
| `DeliveryRefinement.PublicationsAreRequests` | api/ingestion.py:97-150 | so whatever the two threads do with a publication is a run of the protocol up to where its owner acts |
| `Outbox.GatewayOutbox.PublishEnvelope` | api/gateway/outbox.py:32-47 | the envelope is stored first, so it is acknowledged or still held, and removed exactly on an acknowledgement; an overload is raised |
| `Outbox.GatewayOutbox.Oldest` | api/gateway/outbox.py:51-54 | the first member of the sorted set, in numbers: no score is lower, and no id of the same score |
| `Outbox.GatewayOutbox.FlushOnce` | api/gateway/outbox.py:50-79 | only the oldest envelope is touched: forgotten when it is not stored, buried exactly when malformed, sent and removed exactly when acknowledged, else kept, and raised exactly on an overload |
| `Outbox.GatewayOutbox.WorkerPass` | api/gateway/outbox.py:82-88 | a pass loses no envelope: each is still stored, acknowledged once, or dead if malformed; it stops when nothing is pending, at a publication that is not acknowledged, or by the exception of an overload |
| `Outbox.StillAccounted` | api/gateway/outbox.py:50-79 | one flush keeps the account of where every stored envelope went |
| `CustodyBatcher.Flush` | api/ingestion.py:386-405 | one call per context with that context's events in order; every future not yet done gets the outcome of its own event |
| `CustodyBatcher.ResolveGroup` | api/ingestion.py:398-405 | a result per request of the group, or an exception for all when the call failed or returned the wrong number |
| `CustodyBatcher.GroupByContext` | api/ingestion.py:387-389 | contexts in order of first request, each with its own requests in order |
| `CustodyBatcher.PlaceInGroup` | api/ingestion.py:387-400 | a request stands in its group at the place its result is read from |
| `CustodyBatcher.OwnAnswer` | api/ingestion.py:386-405 | with a service that answers each event by itself, every request gets the answer to its own event in its own context |
| `BatcherProtocol.RunsAreValid` | api/ingestion.py:335-405 | over every schedule each admitted request is flushed, in hand or queued exactly once, in admission order; batches and queue stay within their limits; what is flushed is resolved |
| `BatcherProtocol.OrderStep` | api/ingestion.py:335-384 | no step loses, doubles or reorders a request |
| `BatcherProtocol.ResolvedOnce` | api/ingestion.py:399-405 | a future that is done never changes again |
| `BatcherProtocol.CancelledStays` | api/ingestion.py:399-405 | a future cancelled while open stays cancelled whatever the service answers |
| `BatcherProtocol.ABatchGetsFull` | api/ingestion.py:360-380 | with enough requests at hand a batch grows to the limit before it is flushed |
| `BatcherProtocol.FlushAnswersItsOwn` | api/ingestion.py:386-405 | a flush gives each request that was not cancelled the outcome of its own event |
| `BatcherProtocol.EveryFutureIsItsOwn` | api/ingestion.py:335-405 | over every schedule and whatever the service answers each time, a future that is done was cancelled or has the outcome of the very event admitted under its number, from the one batch it was flushed in |
| `BatcherProtocol.FlushIsResolved` | api/ingestion.py:386-405 | the loop's futures are those of the state machine |
| `BatcherProtocol.CloseDrainsExactlyWhenLittleIsQueued` | api/ingestion.py:351-384 | close drains everything admitted before it, under every schedule, exactly when nothing is queued behind a batch in hand or at most one request before an idle worker |
| `BatcherProtocol.CloseMayHangExactlyWhen` | api/ingestion.py:351-384 | close can come to a point from which no schedule lets it return exactly when it is called on a full queue while the worker has a batch in hand, flushing or still collecting |
| `BatcherProtocol.ClosedAdmitsNothing` | api/ingestion.py:338-339 | after close nothing is admitted |
| `BudgetLedger.Ledger.Open` | api/reservation.py:17-56 | each of the seven answers with its exact condition, among them that the hold would take its capped span above the cap; the state is unchanged unless it opened, and then the budget and a capped span hold the amount more |
| `BudgetLedger.Ledger.ReleaseRecord` | src/main/java/io/fluxmeter/sink/BudgetEnforcerSink.java:74-79 | the release shared by close and sink: at most what is held comes off, the record and its deadline go |
| `BudgetLedger.Ledger.CloseScript` | api/reservation.py:99-112 | new state and released amount of the close script for the held keys it is given |
| `BudgetLedger.Ledger.Close` | api/reservation.py:273-316 | settle: the two hash reads, then the script with what they found |
| `BudgetLedger.Ledger.ExpireDue` | api/reservation.py:277-298 | every listed reservation is closed and one alert raised per hold that was there |
| `BudgetLedger.Ledger.ReleaseWindow` | src/main/java/io/fluxmeter/sink/BudgetEnforcerSink.java:74-79 | the sink's loop over a window's reservations |
| `BudgetLedger.Ledger.Sink` | src/main/java/io/fluxmeter/sink/BudgetEnforcerSink.java:46-104 | skip on replay; else the window's holds end and the budget is charged, which WindowForgets and AlertsFireExactlyWhen give in numbers |
| `BudgetLedger.Ledger.ChargeBalance` | src/main/java/io/fluxmeter/sink/BudgetEnforcerSink.java:81-104 | in numbers: the balance pays what it can and the debt grows by the rest; EXHAUSTED exactly when nothing is left, LOW exactly when something is and the balance falls from above the threshold, its own or a tenth of the initial balance, to it or below |
| `BudgetLedger.Ledger.Configure` | api/budget.py:50-90 | refuses exactly negative amounts; else balance, initial and threshold are the given ones, held, debt and totals zero, and no other budget changes |
| `BudgetLedger.Ledger.TopUp` | api/budget.py:92-125 | refuses exactly non-positive amounts, then unknown budgets; else balance and top-ups grow by the amount and nothing else changes |
| `BudgetLedger.Ledger.ReconcileAll` | jobs/reconcile_balances.py:31-67 | the number scanned, the number of drifts and the first hundred of them: one drift row per scanned key above the tolerance, with the totals of the id cut at its first colon, for exactly the balances without tenant |
| `BudgetLedger.EndHoldTakes` | api/reservation.py:103-111 | the end of a hold in numbers: the lesser of held and reserved comes off the budget it was given, at most that off the span, and no other budget or span changes |
| `BudgetLedger.CloseReports` | api/reservation.py:99-112 | a close of an open hold says for whom and how much came off; of any other it only drops the deadline |
| `BudgetConservation.HeldIsWhatIsOpen` | api/reservation.py:17-113 | in every run whose closes find the held key they read and whose windows end holds of their own budget, ids used again included, each budget holds exactly the sum of its open reservations, or at most that while some are open over which it was configured; open ids are pending |
| `BudgetConservation.StepIsBalanced` | api/reservation.py:17-113 | every proper step of opens, closes in flight, windows, attachments, refreshes, top-ups and reconfigurations keeps that |
| `BudgetConservation.EndHoldBalanced` | api/reservation.py:103-111 | ending a hold with its own keys takes off all it reserved |
| `BudgetConservation.EndedStaysEnded` | api/reservation.py:110-111 | an id that is not opened again never holds again after its end, so no hold comes off twice by settle, expiry or sink |
| `BudgetConservation.CloseTakesOffItsOwn` | api/reservation.py:99-112 | settle or expiry of an open hold takes exactly its amount off its own budget and touches no other |
| `BudgetConservation.ExpiryEndsWhatIsDue` | api/reservation.py:277-298 | expiry ends every due hold and reports each once with its full amount |
| `BudgetConservation.CloseConservesExactlyWhenKeysMatch` | api/reservation.py:99-112 | the close script conserves exactly when there is no record or it was given the record's own held key |
| `BudgetConservation.SinkConservesExactlyWhenHoldsAreItsOwn` | src/main/java/io/fluxmeter/sink/BudgetEnforcerSink.java:74-79 | the sink conserves exactly when every live hold attached to the window belongs to the window's budget |
| `BudgetConservation.CoveredRunsNeverOverspend` | src/main/java/io/fluxmeter/sink/BudgetEnforcerSink.java:74-89 | if each applied window costs at most what it releases, every balance covers what is held and no debt is added, in every run |
| `BudgetConservation.WindowReleasesItsHolds` | src/main/java/io/fluxmeter/sink/BudgetEnforcerSink.java:74-79 | a window releases the full amounts of its open holds, so it is covered exactly when it costs at most their sum |
| `BudgetConservation.WindowForgets` | src/main/java/io/fluxmeter/sink/BudgetEnforcerSink.java:74-80 | an applied window ends every reservation attached to it, open or not, with its deadline, and its own set goes |
| `BudgetConservation.ReservedWindowsNeverOverspend` | src/main/java/io/fluxmeter/sink/BudgetEnforcerSink.java:74-89 | windows paid for by their open reservations never overspend, over all proper runs |
| `BudgetConservation.UnracedRunsAreProper` | api/reservation.py:300-316 | closes find the keys they read in every run that opens no id while a close of it is in flight with other keys, whatever ids are used again |
| `BudgetConservation.StepConservesExactlyWhen` | api/reservation.py:17-113 | from a conserved state a step conserves exactly when it is a close with the record's own key, a window of its own holds, or a reconfiguration over nothing open; all others always do |
| `BudgetConservation.RunsConserveExactlyWhenEveryStepDoes` | api/reservation.py:17-113 | held is what is open throughout a run exactly when every step is such a step |
| `BudgetConservation.ConfigureConservesExactlyOverNothing` | api/budget.py:50-90 | a reconfiguration conserves exactly when nothing is open under the budget |
| `BudgetConservation.AttachedHoldsEndWithTheirWindow` | src/main/java/io/fluxmeter/sink/EventProjectionSink.java:58-58 | a hold attached to a window ends with it exactly when the window was not applied before |
| `BudgetConservation.RefreshMovesTheDeadline` | api/reservation.py:263-271 | a refresh decides when its id comes due and touches no other; for an ended hold the entry it leaves is swept by the next expiry, which releases and reports nothing |
| `BudgetConservation.EarlyReadsLoseTheHold` | api/reservation.py:300-316 | a close whose reads precede the open releases from the fallback budget and leaves the hold without a record |
| `BudgetLaws.LedgerLaw` | src/main/java/io/fluxmeter/sink/BudgetEnforcerSink.java:66-89 | balance less debt equals initial plus top-ups less deductions, both non-negative, in every run |
| `BudgetLaws.DriftIsDebt` | jobs/reconcile_balances.py:40-48 | the drift the job computes is the debt |
| `BudgetLaws.DriftIsDebtExactlyForWholeIds` | jobs/reconcile_balances.py:35-48 | the drift is the debt in every run exactly when the id parsed from the key is the whole id |
| `BudgetLaws.TheJobFindsTheUntenantedDebtors` | jobs/reconcile_balances.py:31-56 | after any run, for untenanted ids without a colon, a budget is found exactly when it has no tenant and its debt exceeds the tolerance, with its debt as the drift |
| `BudgetLaws.TheJobListsAllDebtorsExactlyWhen` | jobs/reconcile_balances.py:60-67 | what the result lists are debtors, and it lists all of them exactly when it found at most a hundred |
| `BudgetLaws.AlertsFireExactlyWhen` | src/main/java/io/fluxmeter/sink/BudgetEnforcerSink.java:81-104 | a window that is no replay raises the low-balance alert exactly when the balance falls from above to at or below the threshold, its own or a tenth of the initial, and stays positive; the 70 and 90 percent warnings exactly when an initial is set and the balance falls from above to at or below 30 and 10 percent of it; and the charge, the debt and the total deducted in numbers |
| `BudgetLaws.DriftInNumbers` | jobs/reconcile_balances.py:40-56 | a drift row in numbers: the key's balance, what the totals of the parsed id say it should be, their difference and that id's debt |
| `BudgetLaws.DriftsBothWays` | jobs/reconcile_balances.py:45-56 | in any state exactly the scanned keys that drift by more than the tolerance, up or down, have a row |
| `BudgetLaws.AlertsFireOnce` | src/main/java/io/fluxmeter/sink/BudgetEnforcerSink.java:196-210 | between top-ups or reconfigurations the low-balance alert and the 70 and 90 percent warnings fire at most once each |
| `BudgetLaws.AlertsCross` | src/main/java/io/fluxmeter/sink/BudgetEnforcerSink.java:90-104 | an alert is raised at most once by a window and only when the balance crosses its level |
| `BudgetLaws.NoneLeftExactlyWhenNothingIsLeft` | src/main/java/io/fluxmeter/sink/BudgetEnforcerSink.java:98-99 | running out is reported exactly by the windows that charge a budget and leave it nothing |
| `BudgetLaws.ExhaustedIsReportedByEveryWindow` | src/main/java/io/fluxmeter/sink/BudgetEnforcerSink.java:98-99 | once a budget ran out, until a top-up or reconfiguration, there are exactly as many of these alerts as windows that charge it |
| `BudgetLaws.EndHoldKeepsItsSpanExactlyInFull` | src/main/java/io/fluxmeter/sink/BudgetEnforcerSink.java:74-79 | the end of a hold keeps its capped span backed exactly when all it reserved comes off the budget |
| `BudgetLaws.CloseKeepsSpansExactlyWhen` | api/reservation.py:99-112 | a close with its own held key keeps the spans backed exactly when it takes off its own span |
| `BudgetLaws.SpanChangeKeepsBackingExactlyWhenSettled` | api/reservation.py:30-43 | setting or dropping a cap keeps the spans backed exactly when nothing is open under it |
| `BudgetLaws.SpansHoldWhatIsOpenExactlyWhen` | api/reservation.py:17-113 | budgets and capped spans hold exactly what is open under them throughout a run exactly when every step conserves its budget, settles its caps and closes on its own span |
| `SpanCaps.OpenedIsWithinTheCap` | api/reservation.py:30-43 | in any state an open changes at most its own capped span, by the amount it holds, and leaves that span's spent and held within the cap |
| `SpanCaps.StepKeepsWithin` | api/reservation.py:17-113 | from a span within its cap, a step of any kind leaves it within exactly when it does not book costs or set a cap that put it above |
| `SpanCaps.CapsHoldExactlyWhen` | api/reservation.py:17-113 | over whole runs, with any keys, replays and interleavings, a span stays within its cap exactly when no booked cost and no new cap leaves it above: no open, close or window ever takes it there |
| `Pricing.TierAtToken` | src/main/java/io/fluxmeter/pricing/PricingCatalog.java:433-444 | finds the first tier whose bound is above the token, else the last |
| `Pricing.TierAtContains` | src/main/java/io/fluxmeter/pricing/PricingCatalog.java:432-444 | in a validated list the tier of a token is the one whose bounds contain it, and no other |
| `Pricing.ChunksCostTheirTokens` | src/main/java/io/fluxmeter/pricing/PricingCatalog.java:384-402 | before rounding the loop's chunks cost what the tokens cost one by one, for every tier list and cursor |
| `Pricing.GuardFiresExactlyBeyondEveryTier` | src/main/java/io/fluxmeter/pricing/PricingCatalog.java:392-396 | the capacity guard fires exactly when every tier is bounded and ends at or below the cursor |
| `Pricing.OrderedTiersNeverReachTheGuard` | api/pricing_loader.py:71-81 | so a validated list never reaches it |
| `Pricing.CostCategoryGraduated` | src/main/java/io/fluxmeter/pricing/PricingCatalog.java:384-419 | a category costs the rounded prices of its chunks and moves the cursor by its tokens; on a validated list each tier is paid for its tokens at its own price for the category: input, output, a share of input, or embedding |
| `Pricing.CategoryCostsByTier` | src/main/java/io/fluxmeter/pricing/PricingCatalog.java:384-419 | the chunks of the loop, on a validated list, are that sum over the tiers for each of the six categories |
| `Pricing.OneTierCost` | src/main/java/io/fluxmeter/pricing/PricingCatalog.java:404-413 | at one tier the six categories cost six rounded products of their counts and the tier's input, output, cached, output, input and embedding price |
| `Pricing.GraduatedCostsByTier` | src/main/java/io/fluxmeter/pricing/PricingCatalog.java:367-419 | a graduated event on a validated list is six adjacent stretches of the volume line, each paid tier by tier at its kind of price |
| `Pricing.ChargeTokens` | api/pricing_loader.py:252-273 | the loop terminates and charges each chunk once |
| `Pricing.CostGraduated` | src/main/java/io/fluxmeter/pricing/PricingCatalog.java:367-382 | the six categories share one cursor: an event costs the chunks of six adjacent stretches, on a validated list each paid tier by tier at the tier's own price of its kind |
| `Pricing.CostAtTier` | src/main/java/io/fluxmeter/pricing/PricingCatalog.java:404-413 | an event at one tier: the sum of six rounded products written with the tier's input, output and embedding price and the multiplier |
| `Pricing.CalculateCost` | src/main/java/io/fluxmeter/pricing/PricingCatalog.java:358-364 | flat and volume cost the six rounded products at the prices of the model or of the tier at the volume before; graduated the sum over tiers of the tokens in each at its own prices |
| `PricingLaws.BothRoundToNearest` | src/main/java/io/fluxmeter/pricing/PricingCatalog.java:397-397 | half-up and half-even are within one half |
| `PricingLaws.CostIsCloseToExact` | src/main/java/io/fluxmeter/pricing/PricingCatalog.java:384-402 | an event's cost is within half a microdollar per chunk of its exact per-token price |
| `PricingLaws.LanguagesDifferOnTies` | api/pricing_loader.py:252-273 | the Java cost is at least the Python cost and at most one microdollar more per chunk that is a tie |
| `PricingLaws.LanguagesDifferOnTiesAtOneTier` | api/pricing_loader.py:217-225 | in volume mode at most one more per category that is a tie |
| `PricingLaws.ChunksAreBoundsCrossed` | src/main/java/io/fluxmeter/pricing/PricingCatalog.java:388-400 | a non-empty category has one chunk more than it crosses tier bounds |
| `PricingLaws.ChunkCountIsBounded` | src/main/java/io/fluxmeter/pricing/PricingCatalog.java:367-382 | an event has at most as many chunks as non-empty categories and bounds crossed |
| `PricingLaws.SegmentsTile` | src/main/java/io/fluxmeter/pricing/PricingCatalog.java:367-382 | the categories of an event tile the stretch of the volume line as long as its total |
| `PricingLaws.RoundingBound` | src/main/java/io/fluxmeter/pricing/PricingCatalog.java:367-402 | the two together: half a microdollar per non-empty category and per bound crossed |
| `PricingLaws.LaterEventsCostNoMore` | src/main/java/io/fluxmeter/pricing/PricingCatalog.java:433-444 | with tiers that get cheaper, the exact cost never rises with the volume before |
| `PricingLaws.InsideOneTierModesAgree` | src/main/java/io/fluxmeter/pricing/PricingCatalog.java:358-413 | an event inside one tier costs the same in graduated and volume mode: six rounded products at that tier's prices |
| `PricingLaws.ReadTiers` | api/pricing_loader.py:42-60 | accepts exactly integer bounds and non-negative prices, defaults filled in |
| `PricingLaws.CheckBounds` | api/pricing_loader.py:71-81 | no error exactly for strictly increasing bounds with only the last tier open, else one that is there |
| `PricingLaws.FromJson` | api/pricing_loader.py:38-89 | accepts exactly the well-typed models whose prices, tiers and mode fit together, with the defaults written out; a refusal names a fault that is there |
| `VolumeMeter.MonthlyVolumeMeter.TokensBefore` | src/main/java/io/fluxmeter/pricing/MonthlyVolumeMeter.java:34-37 | rolls to the event's month and returns the tokens billed in it |
| `VolumeMeter.MonthlyVolumeMeter.Advance` | src/main/java/io/fluxmeter/pricing/MonthlyVolumeMeter.java:40-43 | rolls, then adds the event's tokens |
| `VolumeMeter.MonthlyVolumeStampFunction.ProcessElement` | src/main/java/io/fluxmeter/job/MonthlyVolumeStampFunction.java:35-62 | the stamp is what came before the event; the saved state is advanced by it |
| `VolumeMeter.StampAll` | src/main/java/io/fluxmeter/job/MonthlyVolumeStampFunction.java:35-48 | the stamps of a run of the function, one per event in arrival order |
| `VolumeMeter.StampIsRunVolume` | src/main/java/io/fluxmeter/pricing/MonthlyVolumeMeter.java:34-50 | a stamp is the total of the longest run of immediately preceding events of the same month |
| `VolumeMeter.AnotherMonthRestarts` | src/main/java/io/fluxmeter/pricing/MonthlyVolumeMeter.java:45-50 | an event of another month in between makes the month start over |
| `VolumeMeter.RunTilesTheVolumeLine` | src/main/java/io/fluxmeter/pricing/PricingCatalog.java:366-382 | consecutive events of a month price adjacent stretches from zero, without gap or overlap |
| `VolumeMeter.RunCostsItsVolume` | src/main/java/io/fluxmeter/pricing/PricingCatalog.java:366-402 | whatever the price line, the events of a run cost what it rises by over the volume of the run |
| `VolumeMeter.InputMonthCostsItsVolume` | src/main/java/io/fluxmeter/pricing/PricingCatalog.java:366-402 | the exact cost of an uninterrupted input-only month depends only on its total volume |
| `StreamGuarding.BlocksContinue` | api/gateway/stream_guard.py:36-45 | more text continues where the complete blocks ended, or changes nothing once the guard stopped |
| `StreamGuarding.StreamGuard.NoteChunk` | api/gateway/stream_guard.py:88-101 | usage after a parsed chunk: at least one token per delta, provider counts override |
| `StreamGuarding.StreamGuard.ProcessLine` | api/gateway/stream_guard.py:60-84 | one data line: passed, re-printed, raising, or killing |
| `StreamGuarding.StreamGuard.ProcessBlock` | api/gateway/stream_guard.py:55-86 | what one block sends, notes and how it ends |
| `StreamGuarding.StreamGuard.Feed` | api/gateway/stream_guard.py:36-45 | one chunk: exactly the blocks it completes are processed, the rest stays buffered |
| `StreamGuarding.StreamGuard.Transform` | api/gateway/stream_guard.py:33-53 | for every way of cutting the text, output, usage and outcome are those of the whole text |
| `StreamLaws.GuardCutsTheStream` | api/gateway/stream_guard.py:70-84 | without an excess the guard changes nothing; else it sends what came before the block of the first excess, then the kill message |
| `StreamLaws.KilledExactlyOnExcess` | api/gateway/stream_guard.py:79-81 | a stream is killed exactly when some usage on the way is quoted above a positive hold |
| `StreamLaws.LineIsMetered` | api/gateway/stream_guard.py:60-84 | one data line: the end mark and what is not JSON pass as they are; a chunk is noted, then kills exactly above a positive hold, else is printed again |
| `StreamLaws.BlockIsSentLineByLine` | api/gateway/stream_guard.py:55-86 | a block within the hold is sent on as one block, each of its data lines in its place, as it is or printed again; one without data lines is sent as it is unless blank |
| `StreamLaws.GuardIsTransparent` | api/gateway/stream_guard.py:33-86 | within the hold a stream of blocks whose data lines print as they were comes out exactly as it came in |
| `StreamLaws.LastBlockNeedsNoBlankLine` | api/gateway/stream_guard.py:47-53 | text after the last blank line is handled as if a blank line ended it, and not at all when it is blank |
| `StreamLaws.NoteCounts` | api/gateway/stream_guard.py:88-101 | what a chunk adds: a quarter of its text's length, at least one for any text, and a count of the provider takes the place of the sum |
| `StreamLaws.LinesJoin` | api/gateway/stream_guard.py:56-56 | the lines of a block joined again are the block, none with a line break in it |
| `StreamLaws.DataLinesAre` | api/gateway/stream_guard.py:56-56 | the data lines are those that begin with data:, each where it stood |
| `StreamLaws.StripTakesTheSpaceAround` | api/gateway/stream_guard.py:62-62 | stripping takes the white space around a payload and nothing else |
| `StreamLaws.KillIsLastAndUnkilledStaysWithinTheHold` | api/gateway/stream_guard.py:40-53 | one kill message exactly on a kill and nothing after it; a stream that starts with a usage quoted within its hold ends unkilled only within it |
| `UsageAggregation.UsageAggregate.AddEvent` | src/main/java/io/fluxmeter/model/UsageAggregate.java:49-78 | a repeated id only counts as duplicate; anything else adds each number of the event to the counter of its own name, counts itself once, and its latency when positive |
| `UsageAggregation.UsageAggregate.MergeFrom` | src/main/java/io/fluxmeter/model/UsageAggregate.java:80-101 | each counter, the duplicates and the seen ids of both, also when merged with itself; the tenant stays |
| `UsageAggregation.Aggregated` | src/main/java/io/fluxmeter/model/UsageAggregate.java:45-78 | a window is the fold of its events |
| `UsageAggregation.FoldCountsFirstOccurrences` | src/main/java/io/fluxmeter/model/UsageAggregate.java:49-78 | the fold is the sum over first occurrences; null ids always count; all else is a duplicate |
| `UsageAggregation.FoldIgnoresOrder` | src/main/java/io/fluxmeter/model/UsageAggregate.java:49-78 | the counters do not depend on the order when equal ids mean equal events |
| `UsageAggregation.MergeCountsSharedIdsTwice` | src/main/java/io/fluxmeter/model/UsageAggregate.java:80-101 | merging counts each shared id once too often |
| `UsageAggregation.MergeAgreesExactlyOnDisjointIds` | src/main/java/io/fluxmeter/model/UsageAggregate.java:80-101 | so the counters of merge and concatenation agree exactly on disjoint ids |
| `UsageAggregation.MergeIsConcatenationExactlyWhen` | src/main/java/io/fluxmeter/model/UsageAggregate.java:80-101 | tenant included, merging two folds is the fold of both lists exactly when they share no id and the other side names no tenant or the same |
| `UsageSink.ScriptAddsDelta` | src/main/java/io/fluxmeter/sink/RedisSink.java:35-69 | both scripts add to every counter exactly what the window has for it |
| `UsageSink.ScriptAddsItsNumbers` | src/main/java/io/fluxmeter/sink/RedisSink.java:39-69 | each number of the window goes under its own name to the counter of its customer and to those of its model, tenant, month and day that have the name, the total to the month's volume, and nothing to any other key |
| `UsageSink.SinksAgree` | src/main/java/io/fluxmeter/sink/BudgetEnforcerSink.java:49-72 | from the same counters both sinks leave the same counters |
| `UsageSink.UsageCounters.Increment` | src/main/java/io/fluxmeter/sink/RedisSink.java:39-55 | increments in order, each counter created or raised |
| `UsageSink.UsageCounters.RedisSink` | src/main/java/io/fluxmeter/sink/RedisSink.java:35-69 | a replay changes nothing; else every counter grows by the window's amount |
| `UsageSink.UsageCounters.BudgetSink` | src/main/java/io/fluxmeter/sink/BudgetEnforcerSink.java:46-73 | the same for the usage part of the budget sink, and the customer joins the index of the month |
| `UsageSink.CountersAreFirstDeliveries` | src/main/java/io/fluxmeter/sink/RedisSink.java:36-38 | after any deliveries each counter is the sum over first deliveries |
| `UsageSink.FirstOfFirst` | src/main/java/io/fluxmeter/sink/RedisSink.java:36-38 | the deliveries without their replays have the same first deliveries, so a run without replays ends with the same counters |
| `UsageSink.ReplaysChangeNothing` | src/main/java/io/fluxmeter/sink/RedisSink.java:36-69 | a run and the run without its replays end in the same state: counters, marks, index and last window ends |
| `UsageSink.CustomersAddUp` | src/main/java/io/fluxmeter/sink/RedisSink.java:39-48 | each customer's totals are the sums of its models |
| `UsageSink.GlobalsAddUp` | src/main/java/io/fluxmeter/sink/RedisSink.java:51-55 | each tenant's globals are the sums of its customers |
| `UsageSink.IndexListsTheCustomers` | src/main/java/io/fluxmeter/sink/BudgetEnforcerSink.java:73-73 | the index of a month lists exactly the customers that had a window of it |
| `UsageSink.RollupsAddTenantsUp` | src/main/java/io/fluxmeter/sink/RedisSink.java:100-102 | after any deliveries a rollup is the sum over all tenants of what each would have alone |
| `UsageSink.RollupIsOneTenantsExactlyWhen` | src/main/java/io/fluxmeter/sink/RedisSink.java:100-102 | so with amounts that are not negative it is one tenant's exactly when no first delivery of another tenant adds to it |
| `UsageSink.TenantedCountersAreTheirTenants` | src/main/java/io/fluxmeter/sink/RedisSink.java:92-99 | every counter whose key names a tenant is that tenant's alone |
| `Keys.SplitJoin` | src/main/java/io/fluxmeter/job/TokenUsageAggregator.java:252-252 | splitting gives back the joined parts when none holds the separator |
| `Keys.ParseRecoversExactlyFreeIds` | src/main/java/io/fluxmeter/job/TokenUsageAggregator.java:251-266 | parsing the aggregation key recovers tenant, customer and model exactly when no id holds a bar |
| `Keys.BarelessKeysAreCustomers` | src/main/java/io/fluxmeter/job/TokenUsageAggregator.java:262-265 | a key without a bar is read as a customer of an unknown model |
| `Keys.DecimalRead` | src/main/java/io/fluxmeter/util/TenantKeys.java:55-60 | a printed start reads back, negative ones too |
| `Keys.WindowIdIsInjective` | src/main/java/io/fluxmeter/util/TenantKeys.java:55-60 | windows of different owners or starts have different ids, for ids without bars |
| `Keys.BarsCollide` | src/main/java/io/fluxmeter/util/TenantKeys.java:55-60 | with a bar in an id two owners share their window ids |
| `Keys.WindowStartIsTheWindow` | src/main/java/io/fluxmeter/sink/EventProjectionSink.java:125-127 | the computed start is the one tumbling window that holds the timestamp, negative ones too |
| `Keys.AttachedWhereTheSinkReads` | src/main/java/io/fluxmeter/sink/EventProjectionSink.java:125-140 | a reservation is attached where its aggregate's sink reads exactly when the key has two parts, or three with a non-blank first |
| `Keys.FreeIdsAttachWhereTheSinkReads` | src/main/java/io/fluxmeter/model/TokenEvent.java:69-74 | so it always is for ids without bars |
| `Keys.LateMeansWindowPassed` | src/main/java/io/fluxmeter/job/TokenUsageAggregator.java:219-223 | an event is late exactly when its whole window lies before the watermark |
| `Keys.RedisKeysAreDistinct` | src/main/java/io/fluxmeter/util/TenantKeys.java:19-53 | keys of any kind whose tenant, ids and field hold no colon never coincide |
| `Keys.KeysAgreeExactlyWhen` | src/main/java/io/fluxmeter/util/TenantKeys.java:19-53 | two keys, whatever their ids, are the same exactly when both have a tenant or none, and stem and field are the same |
| `Keys.StemReads` | src/main/java/io/fluxmeter/util/TenantKeys.java:19-53 | a key cut at its own marks gives its resource back |
| `Keys.StemPrints` | src/main/java/io/fluxmeter/util/TenantKeys.java:19-53 | a key cut at any marks that stand in it is the key of the resource read there, whose own marks they are |
| `Keys.CollidesExactlyWhen` | src/main/java/io/fluxmeter/util/TenantKeys.java:19-53 | for every kind of key, tenant, id and field: another resource has the key exactly when it can be cut at another mark, or for another kind, that has the field, behind a tenant that is not blank |
| `Keys.PlainKeysCollideExactlyWhen` | src/main/java/io/fluxmeter/util/TenantKeys.java:19-53 | without a tenant: a customer's exactly when its id holds a model's mark and models have the field, a model's always, a monthly volume's exactly at another such mark, all other kinds never |
| `Keys.TenantBudgetsCollideExactlyWhen` | src/main/java/io/fluxmeter/util/TenantKeys.java:25-31 | the money of a tenant's budget exactly at another budget's mark, the held amount at a span's or session's too |
| `Keys.SpansPrintCustomersKeys` | src/main/java/io/fluxmeter/sink/SpanSink.java:51-58 | for any three texts, a span of one tenant has the usage keys of a customer of another |
| `Keys.ScanFindsExactlyPlainBalances` | jobs/reconcile_balances.py:34-34 | the reconciliation scan matches exactly the balances of budgets without tenant |
| `Keys.JobReadsTheCustomerExactlyWhen` | jobs/reconcile_balances.py:35-38 | the id it reads back from such a key is the customer's exactly when that holds no colon |

## Left out

- Kafka, Redis, Flink, HTTP, threads and sockets: produce, acknowledgement, failure, timeout and an atomic script are steps; produce raising means nothing was sent.
- Hashing and JSON: a digest stands for the text it digests, an identity field for the event id; bucket TTLs are not modelled, and the cleanup sample is arbitrary.
- Floating point: money and rates are exact reals, rounding is a function; Java's 64-bit and 32-bit overflow of token counts and tier ends is not modelled.
- The Redis lapse of reservation records, span keys and idempotency marks after their TTL, and the legacy tenant-key fallback while reservations are open.
- Anonymous reserve and reconcile amounts and the re-rating endpoint: they move held amounts and balances without records or totals, and break the conservation laws by design.
- Grouping by bucket is modelled for the claim; transitions and releases run over all buckets in one call, which is the same on distinct fields.
- CustodyProtocol, DeliveryRace and BatcherProtocol are state machines over the steps of concurrent parties, on values: update in place inside one step is not shown there. The scripts, the flush and the outbox are the imperative classes and methods.
- CustodyProtocol.Next: one identity at a time; identities do not interact except inside a batch, which CustodyService covers.
- CustodyProtocol.Next: an outbox envelope is well formed, as the gateway writes it; malformed ones, which the worker buries, are in Outbox.
- TokenEventCustody.Accept: the publication's outcome and what each later call to Redis reaches are given; late callbacks that run beside the call, and outbox calls whose reply is lost, are in CustodyProtocol, and the clock stands still during a call.
- TokenEventCustody.AcceptMany: the attempts of finalize count as one call that reached what any of them reached; a claim that raises ends the call before anything is sent and is not modelled.
- publish_with_ack and publish_batch_with_ack without a dispatcher poll on their own thread and are not modelled.
- BudgetConservation.ReservedWindowsNeverOverspend: windows end holds of their own budget and closes find the keys they read, which SinkConservesExactlyWhenHoldsAreItsOwn and UnracedRunsAreProper tell from the ledger.
- BudgetLedger.Ledger.Sink: the alert thresholds are read with the deduction, while the source reads the initial balance just after it.
- CustodyBatcher.Flush: one flush is one step of the schedule; accepts and closes that arrive during it are steps before or after, which neither its batch nor its result depends on. That a schedule is fair is not assumed: where close cannot hang, some schedule lets it return from every point.
- PricingLaws.FromJson: models the Python loader; the Java loader checks only that mode and tiers fit together, which is why the loop lemmas hold for every tier list.
- StreamGuarding.StreamGuard.Transform: the input is text; replacement decoding of bytes per chunk is not independent of the cuts.
- UsageSink.UsageCounters.BudgetSink: key expiry is not modelled, and a counter is named by its parts, which Keys relates to the printed key.
- Keys.Has: the fields read or written by api, jobs and the job's sinks; keys that begin with other words (rollup, dim, apikey, reservation, window and the like) share no text with these, and keys of scripts and demos are not part of this model.
- Keys.AttachedWhereTheSinkReads: tumbling windows aligned to the epoch, which is how the job's windows are meant; Flink's own assigner is not part of this model.
- SDKs, load generators, control plane, authentication, billing export, reports, webhooks and query routes.
