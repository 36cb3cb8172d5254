# Verified model of the retrieval service's core

This project models the parts of the retrieval, ingestion and payment service
whose correctness depends on interleavings, failures and history, and proves
what they keep. `dafny verify dfyconfig.toml` checks all of it.

| File | Models |
|---|---|
| `resilience_bucket.dfy` | the token bucket of `ResiliencePolicy`, as a class and as runs of calls with clock readings in any order |
| `resilience_bulkhead.dfy` | the bulkhead, time-out and slot release of `ResiliencePolicy.call`, as atomic steps of any number of callers and workers |
| `memory_store.dfy`, `memory_query.dfy` | `RetrievalStore` in memory mode: move-to-end, eviction, removal, rollback, ranking |
| `publisher_connection.dfy` | the lazy Kafka connection of `EventPublisher`, with its lock, its connecting flag, its back-off and a concurrent `close()` |
| `effects.dfy`, `saga_scripts.dfy`, `saga_records.dfy`, `sagas.dfy` | the three request handlers: what they publish, audit, store and answer for every combination of failing calls |
| `event_words.dfy`, `event_payloads.dfy` | the words that the code puts into their events, the payloads of these, and which of them the publisher's guard accepts |
| `supply_chain.dfy`, `string_order.dfy` | the admission gate and the first-seen history that it carries from run to run |
| `metrics.dfy`, `http_metrics.dfy` | the metrics registry against the plain log of everything recorded, and the HTTP middleware |
| `luhn.dfy`, `redaction.dfy`, `sanitizer.dfy`, `sanitize_twice.dfy` | the card check, the tokens, the recursive sanitizer, the publisher's guard and its bounded record |
| `chunking.dfy` | the fallback splitter and the chunk ids |
| `collections.dfy` | sequence functions shared by the others |

Code that updates fields in place is a class whose methods are proved against a
function of the old state; the lemmas then speak of that function over whole
runs. Protocols are state machines over atomic steps. Foreign functions (the
keyed digest, the pattern scan, the tokenizer of the memory query, rounding) are
parameters, and whatever a lemma needs of them is in its `requires`.

Some properties that one might expect do not hold of the code. The model follows
the code, gives an input at which each fails, and proves exactly when it holds:

- A bucket whose rate is below one call per second admits nothing, ever
  (`TokenBucket.BelowOneNeverAdmits`; the converse is in `TokenBucket.SomeCallIsAdmittedIff`),
  and clock readings that overtake each other can drive its balance below zero
  (`TokenBucket.OvertakingGoesNegative`; the exact condition, for every run, is
  `TokenBucket.BalanceNonNegativeIff`). The admission bound holds all the same.
- A payment whose network name is a card number passes the check of that field
  and is then refused by the publisher's guard, so that a valid request is answered
  502 (`EventPayloads.CardNetworkIsRefused`, `EventPayloads.CardNumberIsANetworkName`;
  the exact condition is `EventPayloads.PaymentEndsAs`). The guard refuses nothing
  else that a handler publishes (`EventPayloads.ScriptedIsAccepted`).
- A question whose model client cannot be set up leaves with no terminal
  transition, because that happens outside every handler
  (`SagaScripts.AskWithoutModelNeverEnds`; otherwise `EventPayloads.AskIsNeverRefused`
  gives exactly one).
- Findings of one new identity are given different first-seen dates if their
  introduced status differs, and then the order of the findings shows in the
  history (`AdmissionGate.OrderCanMatter`; the exact condition is
  `AdmissionGate.OrderDoesNotMatterIff`).
- A constructor that escapes with something other than an `Exception` leaves the
  connecting flag set (`KafkaConnection.ConstructorCanAbort`), so the publisher never
  connects again (`KafkaConnection.AbortIsFinal`; when it does connect is
  `KafkaConnection.ConnectsExactlyWhenDue`). A `close()` during a construction does
  not close the producer installed afterwards (`KafkaConnection.CloseWhileConnecting`;
  the exact condition for a final `close()` is `KafkaConnection.CloseIsFinalIff`).
- Two card texts with the same digits that fail the card check get the same
  token only if they agree up to outer white space or their digests collide
  (`Redaction.SameDigitsSameToken`, for every digest; a dash makes them differ,
  `Redaction.InvalidCardsCanDiffer`).
- Sanitizing twice may differ from sanitizing once, since a digest inside a text
  can itself match a pattern (`SanitizeTwice.SanitizingTwiceCanDiffer`); the exact
  condition, on what the scan finds in the redacted texts, is `Sanitizer.IdempotentIff`
  with `Sanitizer.SettledByPosition`.

What a handler does if a publication raises is proved for every combination of raises
(`SagaScripts.IngestionEndsIff`, `SagaScripts.AskEndsIff`, `SagaScripts.PaymentEndsIff`),
and `event_payloads.dfy` then shows that, for an ingestion and a question, none does.

## Model

| member | source | states |
|---|---|---|
| TokenBucket.Bucket.constructor | contexts/ai/resilience.py:46-47 | a new bucket is full at its construction time |
| TokenBucket.Bucket.TakeToken | contexts/ai/resilience.py:50-59 | one call refills, caps, records the clock and spends a token exactly when at least one is there; a rejected call keeps the refill |
| TokenBucket.NewPolicy | contexts/ai/resilience.py:41-48 | a policy exists exactly when all three limits are positive |
| TokenBucket.OutcomeAt | contexts/ai/resilience.py:50-59 | a call's outcome is decided by the balance that the calls before it left |
| TokenBucket.NeverOverfull | contexts/ai/resilience.py:54 | no run, in any clock order, leaves more than the capacity |
| TokenBucket.PotentialBound | contexts/ai/resilience.py:50-59 | the potential tokens minus earned time plus admissions never grows, for any order of clock readings |
| TokenBucket.AdmissionBound | contexts/ai/resilience.py:41-59 | in every contiguous segment of a run the admissions are at most rate times one plus the time from the first call to the last admission, for any clock order |
| TokenBucket.LifetimeBound | contexts/ai/resilience.py:41-59 | the same bound since construction |
| TokenBucket.IdealIsTightestWindow | contexts/ai/resilience.py:50-59 | the level of a continuously refilled bucket is the slack of its tightest admission window |
| TokenBucket.LazyIsIdeal | contexts/ai/resilience.py:50-59 | the lazily refilled bucket shows the level of the continuously refilled one at every instant |
| TokenBucket.RejectionIsNeutral | contexts/ai/resilience.py:53-58 | a rejected call leaves every later level as it was, whatever its clock |
| TokenBucket.AdmittedIffEveryWindowAllows | contexts/ai/resilience.py:50-59 | the exact admission rule: a call is admitted if and only if admitting it overdraws no window since construction or since an earlier admission |
| TokenBucket.RejectedCallsCanBeDeleted | contexts/ai/resilience.py:53-58 | deleting any rejected calls from a run changes no other outcome, in any clock order |
| TokenBucket.BelowOneNeverAdmits | contexts/ai/resilience.py:54-58 | below one token a second no call is ever admitted |
| TokenBucket.SomeCallIsAdmittedIff | contexts/ai/resilience.py:54-58 | some call of some run is admitted if and only if the rate is at least one token a second |
| TokenBucket.BalanceInRange | contexts/ai/resilience.py:50-59 | with in-order clocks the balance stays between zero and the rate |
| TokenBucket.BalanceStaysNonNegative | contexts/ai/resilience.py:53-59 | for one call from a non-negative balance: its reading must not lag the last one by more than the balance is worth |
| TokenBucket.BalanceNonNegativeIff | contexts/ai/resilience.py:46-59 | after any run, in any clock order, the balance is non-negative if and only if, from one token a second on, no window since construction or an earlier admission is overdrawn at the last reading, and, below, that reading lags none before it by over a second |
| TokenBucket.OvertakingGoesNegative | contexts/ai/resilience.py:51-58 | two overtaking readings drive the balance below zero |
| TokenBucket.SpacedCallIsAdmitted | contexts/ai/resilience.py:50-59 | in order and with a rate of at least one, a call at least 1/rate after the previous one is admitted |
| TokenBucket.BurstAdmitsTheBalance | contexts/ai/resilience.py:50-59 | of a burst at one instant exactly the calls up to the balance are admitted, so the bound is attained |
| Bulkhead.StepKeepsInv | contexts/ai/resilience.py:96-139 | every step of every caller and worker keeps the slot accounting and the shape of each call |
| Bulkhead.SlotsAreConserved | contexts/ai/resilience.py:96-139 | in every interleaving free permits plus held slots equal the limit, the worker count is the number of counted slots, and running operations, abandoned ones included, never exceed it |
| Bulkhead.EachSlotReleasedOnce | contexts/ai/resilience.py:108-123 | each slot is released at most once and only when its operation is done or was never submitted; a cancelled operation never starts |
| Bulkhead.ReleaseNeverOverflows | contexts/ai/resilience.py:108-113 | the bounded semaphore is never released past its limit |
| Bulkhead.RefusedIffSaturated | contexts/ai/resilience.py:98-100 | a call is refused for concurrency exactly when all slots are held |
| Bulkhead.CallsAreBounded | contexts/ai/resilience.py:96-139 | no call takes more than thirteen steps in any interleaving |
| Bulkhead.RestReturnsEverySlot | contexts/ai/resilience.py:96-139 | once no call can step, every acquired slot was released exactly once and the policy is as new |
| Bulkhead.AbandonedOperationKeepsItsSlot | contexts/ai/resilience.py:122-133 | a caller that left keeps its slot while its operation still runs |
| Bulkhead.EveryShapeIsReached | contexts/ai/resilience.py:96-139 | the states of one call are exactly those of the invariant: from every reachable state a new call can come into each of them that fits the permits, while no other call changes |
| Bulkhead.NewCallCanReturn | contexts/ai/resilience.py:96-139 | as long as a permit is free a new call can get its result, after its operation ran once, and leave permits and counter as they were |
| Bulkhead.PendingCallCanReturn | contexts/ai/resilience.py:116-128 | in every reachable state a call whose operation was not started can get its result, whether its callback is registered already or not |
| Bulkhead.WaitingCallCanLeave | contexts/ai/resilience.py:125-139 | in every reachable state a waiting call can time out, or leave with another exception, whatever its operation does |
| Bulkhead.OutcomeFacts | contexts/ai/resilience.py:96-139 | a result means that the operation ran once to its end; a refused call, a failed submission and a cancelled operation never ran |
| Bulkhead.Policy.constructor | contexts/ai/resilience.py:44-48 | a new policy has all permits free and no active worker |
| Bulkhead.Policy.TryAcquire | contexts/ai/resilience.py:98 | the permit is granted exactly when fewer than the limit are held, as one step of the protocol |
| Bulkhead.Policy.CountIn | contexts/ai/resilience.py:102-104 | the counter returned is the number of counted slots |
| Bulkhead.Policy.CountOut | contexts/ai/resilience.py:109-111 | the counter returned is the number of slots still counted, never negative |
| Bulkhead.Policy.ReleasePermit | contexts/ai/resilience.py:113 | the slot becomes free, as one step of the protocol, and the semaphore never overflows |
| MemoryStore.RetrievalStore.constructor | app/storage.py:47 | an empty store with a limit of at least one |
| MemoryStore.RetrievalStore.Assign | app/storage.py:132-133 | assigning and moving to the end leaves the other documents in order and this one last |
| MemoryStore.RetrievalStore.Evict | app/storage.py:134-135 | evicting from the front leaves the last documents up to the limit |
| MemoryStore.RetrievalStore.Store | app/storage.py:131-135 | one document is written last and the store stays distinct and within the limit |
| MemoryStore.RetrievalStore.Remember | app/storage.py:128-135 | all pairs are written in order; nothing happens when a back end is configured |
| MemoryStore.RetrievalStore.Remove | app/storage.py:152-164 | the named documents are gone, the others keep their order |
| MemoryStore.CutAtKey | app/storage.py:163-164 | dropping the position of a key is dropping the key |
| MemoryStore.WriteFacts | app/storage.py:132-133 | a write keeps ids distinct, keeps all other documents, and grows the store by one exactly when the id is new |
| MemoryStore.OpsSimulate | app/storage.py:128-164 | every operation keeps the bounded store a suffix of the one that never evicts |
| MemoryStore.StoreIsASuffix | app/storage.py:128-164 | after any adds and removes the store is a suffix (order, ids, texts) of the store that never evicts, within the limit |
| MemoryStore.WithoutRemovesTheStoreIsFull | app/storage.py:128-135 | without removes its size is the smaller of the limit and the number of distinct ids, and it is that long an end of the unbounded store |
| MemoryStore.FreshWrites | app/storage.py:128-135 | writing new ids appends and cuts to the limit |
| MemoryStore.RollbackKeepsTheRecentEnd | app/main.py:199-214 | adding k new chunks and removing them leaves exactly the last max(0, limit - k) earlier documents in order |
| MemoryStore.RollbackRestoresIffItFitted | app/main.py:203-204 | the rollback restores the store exactly when nothing had to be evicted |
| MemoryQuery.OrderRanks | app/storage.py:200 | the sort lists every document once, by descending score and then store order |
| MemoryQuery.HitsFollowTheRanking | app/storage.py:198-202 | the hits are the positively scoring front of the ranking, each with its rank as index |
| MemoryQuery.QueryReturnsTheTop | app/storage.py:193-202 | the answer is the first top_k of the stable descending ranking by score; a scoring document is left out only behind top_k better ones |
| MemoryQuery.ScoreIsMostShared | app/storage.py:193-197 | the score is the number of words that query and document share |
| MemoryQuery.QueryIs | app/storage.py:193-202 | the answer in terms of words: only documents that share one, more shared words first and then older ones, and none left out but behind top_k that are no worse |
| MemoryQuery.BoundCutsTheAnswer | app/storage.py:198-202 | a bound cuts the full answer, a negative one from its end |
| MemoryQuery.AnyStableSortAgrees | app/storage.py:200 | the answer does not depend on the sorting algorithm as long as it is stable |
| MemoryQuery.LargerBoundExtends | app/storage.py:198-202 | a larger top_k only extends the list |
| KafkaConnection.Connection.constructor | contexts/governance/publisher.py:92-97 | no producer, not connecting, and a back-off of at least a tenth of a second |
| KafkaConnection.Connection.GetProducer | contexts/governance/publisher.py:103-115 | the first critical section: use, skip or connect, setting the flag only to connect |
| KafkaConnection.Connection.RecordFailure | contexts/governance/publisher.py:131-134 | a failed construction clears the flag and sets the deadline |
| KafkaConnection.Connection.Install | contexts/governance/publisher.py:142-146 | a success clears the flag and installs the producer unless there is one |
| KafkaConnection.Connection.Close | contexts/governance/publisher.py:179-181 | closing takes the producer out and leaves flag and deadline alone |
| KafkaConnection.RunKeepsInv | contexts/governance/publisher.py:103-187 | every interleaving keeps the flag, producer and attempt invariants |
| KafkaConnection.OneConnectorAtATime | contexts/governance/publisher.py:109-146 | at most one thread connects; the flag excludes a producer and is set exactly while a thread connects, or after a constructor escaped |
| KafkaConnection.NoProducerIsLost | contexts/governance/publisher.py:116-187 | every producer created is about to be installed, installed or handed to close; none is discarded and at most one is open |
| KafkaConnection.CloseIsFinalIff | contexts/governance/publisher.py:103-187 | after any run, a close leaves every producer closed for as long as no later publication connects, if and only if the constructor of every thread in flight has already raised |
| KafkaConnection.CloseWhileConnecting | contexts/governance/publisher.py:116-181 | a close during a construction leaves the producer installed afterwards open |
| KafkaConnection.AttemptsRespectBackoff | contexts/governance/publisher.py:109-134 | any attempt after a failed one starts at least the back-off later, with successes and closes in between |
| KafkaConnection.ConnectsExactlyWhenDue | contexts/governance/publisher.py:103-134 | after any run, a publication starts to connect exactly when Kafka is enabled, there is no producer, nobody connects, no constructor ever escaped, and the back-off has passed since every failure |
| KafkaConnection.PublicationDecides | contexts/governance/publisher.py:103-115 | after any run a publication uses a producer if and only if Kafka is enabled and that producer is created, not closed and held by no thread in flight; it connects if there is none and a connection is due, and skips otherwise |
| KafkaConnection.ConnectionCanSucceed | contexts/governance/publisher.py:116-146 | in every reachable state a thread that is constructing can install any new producer |
| KafkaConnection.ConnectionCanFail | contexts/governance/publisher.py:131-134 | it can also fail, and the next publication then connects again if and only if the back-off is over |
| KafkaConnection.FailuresPerWindow | contexts/governance/publisher.py:109-134 | a window of length T holds at most 1 + T/backoff failed attempts |
| KafkaConnection.AbortIsFinal | contexts/governance/publisher.py:115-131 | once a constructor escapes with a non-Exception, no run attempts to connect again |
| KafkaConnection.ConstructorCanAbort | contexts/governance/publisher.py:115-131 | two steps reach such a state: a publication and a constructor that escapes |
| Sagas.Service.PublishEvent | app/main.py:109-121 | an event is published unless the call raises; either way the next publication is the next number |
| Sagas.Service.RecordTransition | app/main.py:94-121 | a failing audit write is swallowed, the transition is published all the same, and a raising publication is passed on |
| Sagas.Service.RecordCompensation | app/main.py:124-129 | a compensation is audited unless the write fails, which is swallowed |
| Sagas.Service.AuditFailure | app/main.py:201-214 | a failed audit write removes the chunks, or records the failed rollback, and then compensates |
| Sagas.Service.StoreAndAudit | app/main.py:184-218 | documents, events, records and status for each combination of store, audit and rollback failures, also when a publication raises |
| Sagas.Service.Ingest | app/main.py:174-229 | for every combination of failing calls, raising publications included: the events published, the records audited, the answer, and the documents left |
| SagaScripts.IngestionEndsOnce | app/main.py:174-229 | the script of an ingestion starts once and ends once, COMPLETED exactly when answered 200, otherwise with exactly one IngestionCompensated |
| SagaScripts.IngestionEndsIff | app/main.py:180-229 | exactly when an ingestion publishes two terminal transitions (a publication raised right after the first) and when none, in terms of which publication raised |
| SagaScripts.IngestionEndsAre | app/main.py:180-229 | which terminal transitions an ingestion publishes, in order, whatever raises |
| SagaRecords.QuietIngestion | app/main.py:174-229 | the events, audit records and answer of an ingestion none of whose publications raises, told from the calls that fail |
| SagaRecords.IngestionRecordIff | app/main.py:184-200 | whatever raises, an ingestion has its request record exactly if it comes to its audit write and the write succeeds |
| SagaRecords.IngestedIsOnRecord | app/main.py:199-218 | a 200 has its request record, between the records of its two transitions |
| SagaRecords.DocumentsAreThose | app/main.py:184-214 | the documents that an ingestion leaves, told from the calls that fail |
| SagaScripts.IngestionFollowsItsScript | app/main.py:174-229 | when no publication raises, exactly the script of the outcome is published and its status answered |
| SagaScripts.IngestionTrail | app/main.py:104-121 | whatever raises, the audited transitions are a subsequence of the published ones if no audited transition's own publication raised, and, with no failing audit write, only then |
| SagaScripts.AuditFailureKeepsTheRecentEnd | app/main.py:199-214 | after a failed audit write the store holds the recent end of the earlier documents, or all chunks if the rollback failed too |
| SagaScripts.IngestedChunksAreFresh | contexts/ingestion/services.py:24-27 | the chunks of one request are new to a store filled by other requests, and distinct |
| Sagas.Service.AskWithOutcome | contexts/ai/services.py:33-104 | output, evidence, events and compensations for each mixture of retrieval and inference failures, up to a publication that raises |
| Sagas.Service.PublishCompensations | contexts/ai/services.py:88-104 | the loop publishes one compensation per failed boundary, until a publication raises |
| Sagas.Service.RecordCompensations | app/main.py:289-291 | each compensation is audited in order unless its write fails |
| Sagas.Service.AnswerQuestion | app/main.py:292-308 | the request record and terminal transition, or the compensation of a failed audit write |
| Sagas.Service.Ask | app/main.py:266-308 | for every combination of failing calls, raising publications included: the events published, the records audited, the answer and the output |
| SagaScripts.AskEndsOnce | app/main.py:266-308 | the script of a question starts once and ends once, COMPLETED exactly when retrieval, the inference it needed and the audit write succeeded |
| SagaScripts.AskEndsIff | app/main.py:266-308 | whatever raises, a prefix of the script is published, complete exactly when nothing raised, and its terminal transition is the only one |
| SagaRecords.QuietAsk | app/main.py:266-308 | the events, audit records and answer of a question none of whose publications raises, told from the calls that fail |
| SagaRecords.AskRecordIff | app/main.py:292-293 | whatever raises, a question has its request record exactly if it comes to its audit write and the write succeeds |
| SagaRecords.AnsweredIsOnRecord | app/main.py:289-307 | a 200 has its request record, before the record of its terminal transition |
| SagaRecords.OutputIs | contexts/ai/services.py:49-70 | which output a question gets; one of the model exactly if there was evidence, a model was wanted and its inference succeeded |
| SagaScripts.AskWithoutModelNeverEnds | app/main.py:272-279 | a model client that cannot be set up leaves a question with its first transition only, though no publication raises |
| SagaScripts.FailureIsCompensatedOnce | contexts/ai/services.py:72-104 | a failed boundary has exactly one compensation, caused by the one processed event, which is marked compensated exactly then |
| SagaScripts.AskTrail | app/main.py:104-121 | the same for the audited transitions of a question |
| Sagas.Service.AssessRisk | contexts/payments/services.py:91-102 | the score of a payment, or the one that fails closed |
| Sagas.Service.AnnounceScore | contexts/payments/services.py:102-129 | a failed score is compensated before it is announced, unless that raises |
| Sagas.Service.ScorePayment | contexts/payments/services.py:88-129 | the score, decision and events, failing closed when the policy or the detector raises |
| Sagas.Service.ConcludePayment | app/main.py:250-263 | the terminal transition, record and status that follow the try block |
| Sagas.Service.IngestPayment | app/main.py:232-263 | for every combination of failing calls, raising publications included: the events published, the records audited, the answer and the decision |
| SagaScripts.PaymentEndsIff | app/main.py:232-263 | whatever raises, a payment publishes its script up to the first raise and then exactly one terminal transition, COMPLETED exactly when intake, scoring and their publications succeeded, unless a transition's own publication raises |
| SagaScripts.QuietPayment | app/main.py:232-263 | when only the announcement of the payment can raise, the payment publishes the script of its outcome and is answered |
| SagaRecords.QuietPaymentIs | app/main.py:232-263 | the events, audit records and answer of a payment of which only its own announcement can raise |
| SagaRecords.ScoreIs | contexts/payments/services.py:91-102 | the score: the rounded part of 10000 units of the currency, at most 1, at least 0.7 for an anomaly, and 0 with a review when scoring fails |
| SagaScripts.AllowedIff | contexts/payments/services.py:88-129 | a scoring failure is reviewed, and "allow" needs a low score and no anomaly |
| SagaScripts.PaymentTrail | app/main.py:104-121 | the same for the audited transitions of a payment |
| SagaScripts.AnomalyServiceFailsClosed | contexts/payments/services.py:132-146 | with the anomaly service a failing detector counts as an anomaly, so the payment is reviewed without failing the score |
| SagaScripts.ReviewStartsAtSevenThousand | contexts/payments/services.py:19-97 | without rounding or anomaly the review starts at exactly 7000 units of the currency, whatever its minor digits |
| SagaScripts.ReviewIsMonotone | contexts/payments/services.py:91-97 | a larger amount in the same currency is never allowed where a smaller one is reviewed |
| Effects.PublishedIsAPrefix | app/main.py:104-121 | of any list of steps, what comes before the first raising publication is published, and the list ends there |
| Effects.RunIsCut | app/main.py:104-121 | any list of steps is cut where a publication raises: up to there everything is published and audited, and nothing afterwards |
| Effects.TrailOf | app/main.py:104-121 | the audited transitions are the published ones in order, without those whose audit write failed, followed by the one audited before its own publication raised, if any |
| EventPayloads.PayloadTellsTheEvent | domain/events.py:28-153 | with the same identifiers and stamps, two events have one payload exactly if they are of one class with the same content, so nothing that a handler says is lost |
| EventWords.TopicsDiffer | domain/events.py:26-145 | no two event classes share a topic |
| EventPayloads.ScriptedIsAccepted | contexts/governance/publisher.py:50-67 | the guard refuses an event of a handler exactly when it is a payment whose network name is no token and has a match other than a time stamp |
| EventPayloads.WordyNamesFit | contexts/ai/services.py:72-104 | class names without '@' and with at most a final digit leave the error details of an event clean |
| EventPayloads.SourceTokensFit | app/main.py:179 | the source token of an ingestion is a token, or empty |
| EventPayloads.PaymentTokensFit | contexts/payments/services.py:59-60 | the transaction and merchant tokens of a payment are tokens |
| EventPayloads.PaymentTokens | contexts/payments/services.py:61-62 | two transactions, or two merchants, get one token exactly when they agree up to outer spaces or their messages collide |
| EventPayloads.IngestionIsNeverRefused | app/main.py:174-229 | no publication of an ingestion raises, so it publishes its script with exactly one terminal transition, COMPLETED exactly when answered 200, and the audit trail follows |
| EventPayloads.AskIsNeverRefused | app/main.py:266-308 | no publication of a question raises, so it publishes its script with exactly one terminal transition unless its model client cannot be set up |
| EventPayloads.PaymentIsRefusedIff | app/main.py:232-263 | for any score, a payment publishes its script, ends exactly once and is answered; its first part fails exactly when intake does or the scan finds a match other than a time stamp in the network name |
| EventPayloads.PaymentEndsAs | app/main.py:232-263 | with the score that the code computes: a payment ends exactly once, COMPLETED if and only if intake succeeds, the scan finds nothing but time stamps in the network name and scoring does not fail; an allowing score is published exactly then, if it is low and there is no anomaly |
| EventPayloads.CardNetworkIsRefused | contexts/payments/services.py:53-73 | a network name that the scan takes for a card number is accepted by the field check and refused by the guard |
| EventPayloads.CardNumberIsANetworkName | app/main.py:77 | the field check accepts the digits of a card number |
| EventPayloads.DigitsAreANetworkName | app/main.py:77 | digits alone are accepted exactly at 1 to 32 of them |
| AdmissionGate.FindingIgnoresAliasOrder | ops/supply_chain.py:161-167 | a finding does not depend on the order or repetition of its aliases and fixes |
| AdmissionGate.VulnerabilityIsLeast | ops/supply_chain.py:161-167 | the identity is the least CVE among the aliases, else the least alias; no alias is an error |
| AdmissionGate.FindingIs | ops/supply_chain.py:161-167 | the other fields of a finding; it is fixable exactly if some fix is listed |
| AdmissionGate.SameIdentityIff | ops/supply_chain.py:202-203 | two findings are one identity exactly if target, package and vulnerability agree |
| StringOrder.SortedSetFacts | ops/supply_chain.py:162 | the sorted set is strictly increasing and has the same members |
| StringOrder.SortedIsUnique | ops/supply_chain.py:162 | a strictly increasing list is determined by its members |
| StringOrder.AtMostIff | ops/supply_chain.py:162 | the order of strings is that of the characters at their first difference |
| AdmissionGate.ValidateExceptions | ops/supply_chain.py:206-216 | all exceptions are accepted, or the error of the first unacceptable one is raised |
| AdmissionGate.AcceptedDays | ops/supply_chain.py:206-216 | the days on which an exception is accepted: those of its term, if that is at most 30 days for Critical, 60 for High, 90 otherwise, and the owner approved it |
| AdmissionGate.AllAccepted | ops/supply_chain.py:206-216 | exceptions are accepted together exactly if each is on its own; otherwise the first that is not gives the error |
| AdmissionGate.MatchingIsFirst | ops/supply_chain.py:246-247 | the exception that applies is the first that names target, package, version and vulnerability |
| AdmissionGate.VerdictBlocksIff | ops/supply_chain.py:219-252 | what a verdict blocks, in terms of aliases, catalogue, earlier findings, severity, age and exceptions |
| AdmissionGate.FirstSeenIs | ops/supply_chain.py:238-241 | the date of a finding: the recorded one, else the day of the run if it is new, and otherwise no later than the initial date |
| AdmissionGate.InitialDayIs | ops/supply_chain.py:22 | the initial date is 19 October 2026 |
| AdmissionGate.JudgeFailsIff | ops/supply_chain.py:241-249 | a finding is an error exactly if its recorded date is in the future or the first exception that names it has another severity or lacks the work order of a fix |
| AdmissionGate.ReasonIs | ops/supply_chain.py:219-231 | which of the four reasons is reported |
| AdmissionGate.ExceptionLiftsIff | ops/supply_chain.py:246-251 | an exception lifts the block exactly if it names target, package, version and vulnerability |
| AdmissionGate.KnownHighIsOldAtOnce | ops/supply_chain.py:219-252 | a fixable High that the previous scan also lists is blocked in its very first run from fourteen days after the initial date on, unless an exception names it |
| AdmissionGate.Ledger.EvaluateOne | ops/supply_chain.py:234-252 | the verdict on one finding and the in-place update of the history, with the error cases |
| AdmissionGate.Evaluate | ops/supply_chain.py:255-263 | the loop over findings yields the fold of the verdicts and the history, or the first error |
| AdmissionGate.RunExtends | ops/supply_chain.py:238-243 | a run only adds entries, and none later than its day |
| AdmissionGate.RunFailsLikeItsFindings | ops/supply_chain.py:255-263 | a run fails exactly when a finding fails on its own, with the error of the first such finding |
| AdmissionGate.RunSucceedsIff | ops/supply_chain.py:255-263 | a run succeeds exactly if the catalogue is well formed, each exception is accepted and no finding is an error |
| AdmissionGate.RunJudgesEach | ops/supply_chain.py:255-263 | each finding of a run gets its own verdict against the previous findings, the catalogue, the exceptions and the day of that run |
| AdmissionGate.RunIsPointwise | ops/supply_chain.py:234-263 | when findings of one new identity agree, every verdict comes from the incoming history alone |
| AdmissionGate.OrderDoesNotMatter | ops/supply_chain.py:234-263 | permuting the findings permutes the verdicts and yields the same history |
| AdmissionGate.OrderDoesNotMatterIff | ops/supply_chain.py:237-243 | that agreement is exactly the condition under which every reordering yields the same history |
| AdmissionGate.OrderCanMatter | ops/supply_chain.py:237-243 | two findings of one new identity, only one of them known by an alias, get different dates in the two orders |
| AdmissionGate.SameIntroducedIsConsistent | ops/supply_chain.py:236-239 | agreeing on the introduced status is enough for it |
| AdmissionGate.RunsNeverMeetTheFuture | ops/supply_chain.py:240-243 | over runs on non-decreasing days from an empty history, no run meets a future first-seen date |
| AdmissionGate.RecordedDatesPersist | ops/supply_chain.py:333-339 | a recorded date never changes or vanishes over later runs |
| AdmissionGate.AgedHighIsBlocked | ops/supply_chain.py:219-252 | a fixable High recorded on day d has a block reason in a later run exactly if it is known exploited, introduced, or that run is on day d + 14 or later; an exception lifts the block only |
| Metrics.Registry.constructor | app/metrics.py:10-17 | an empty registry matches an empty log |
| Metrics.Registry.IncCounter | app/metrics.py:62-64 | counters stay the sums of what was logged |
| Metrics.Registry.SetGauge | app/metrics.py:67-69 | gauges stay the latest value plus later changes |
| Metrics.Registry.HttpInFlight | app/metrics.py:72-75 | the in-flight gauge moves by the logged change |
| Metrics.Registry.CountBuckets | app/metrics.py:144-146 | the loop adds one to exactly the buckets at or above the duration |
| Metrics.Registry.ObserveUnderLock | app/metrics.py:140-146 | sums, counts and buckets stay those of the log |
| Metrics.Registry.ObserveDuration | app/metrics.py:135-137 | the whole registry refines the log after a duration |
| Metrics.Registry.ObserveHttpRequest | app/metrics.py:78-86 | the whole registry refines the log after a request, counter and histogram together |
| Metrics.Registry.Scrape | app/metrics.py:195-212 | one histogram of a scrape reports, for each bound, the observations at or below it, and the count and sum of the log, and changes no reported value although it inserts zeros |
| Metrics.Registry.ScrapeAll | app/metrics.py:188-212 | a scrape reports every observed label set of every histogram family as the log has it, and no other |
| Metrics.BucketsAreCumulative | app/metrics.py:140-146 | buckets are cumulative and never exceed the total |
| Metrics.LargeBucketCountsAll | app/metrics.py:205-209 | a bound above every duration counts the total |
| Metrics.HistogramIs | app/metrics.py:140-146 | count, sum and buckets of a series are those of the durations selected from the log |
| Metrics.CounterIsSum | app/metrics.py:62-64 | a counter is the sum of what was added to it |
| Metrics.LatestSetIsShown | app/metrics.py:67-69 | a gauge shows what it was last set to |
| Metrics.CountersMatchHistogram | app/metrics.py:78-86 | request counters summed over status classes equal the histogram count of the route and verb |
| Metrics.SeriesCountsRequests | app/metrics.py:78-86 | the series of a route and verb counts exactly the requests of that route and verb, and its counters those of each status class |
| Metrics.VerbIs | app/metrics.py:79-81 | each of nine verbs has its own series, and all others share one |
| Metrics.StatusClassIff | app/metrics.py:83 | the class label is the hundreds digit from 200 to 599 and "other" outside |
| Metrics.CounterIdentifiesRequest | app/metrics.py:82-86 | different route, verb or class means a different series |
| Metrics.VerbsAreBounded | app/metrics.py:79-81 | only ten method labels ever become series, whatever verbs callers choose |
| Metrics.GaugeIsNetChange | app/metrics.py:72-75 | unless someone sets it, the in-flight gauge is the net of all changes |
| HttpMetrics.Middleware.EnterRequest | app/http_metrics.py:16-21 | entering raises the gauge by one; a scope that is not HTTP changes nothing |
| HttpMetrics.Middleware.StartResponse | app/http_metrics.py:23-27 | the latest response start decides the status |
| HttpMetrics.Middleware.ObserveRequest | app/http_metrics.py:31-34 | the first half of the final clause: one entry with the current status and the route template or "unmatched" |
| HttpMetrics.Middleware.LeaveRequest | app/http_metrics.py:35 | the second half: the gauge goes down by one and the request is closed |
| HttpMetrics.GaugeCountsOpenRequests | app/http_metrics.py:16-35 | in every interleaving, with other registry events among them, the gauge is the number of open requests, and zero when there are none |
| HttpMetrics.EachRequestIsCountedOnce | app/http_metrics.py:29-35 | in every interleaving a request has at most one entry, and exactly one once it has left |
| HttpMetrics.AtRestAllAreCounted | app/http_metrics.py:16-35 | when no request is open the gauge is zero and every request that ever entered has exactly one entry |
| HttpMetrics.EntryHasTheLastStatus | app/http_metrics.py:20-34 | the entry of a request has the last status it sent before it was counted, 500 if it sent none, its verb and duration, and its route template or "unmatched" |
| HttpMetrics.NewRequestCanEnter | app/http_metrics.py:16-27 | after any run a new request can enter and send a status |
| HttpMetrics.OpenRequestCanLeave | app/http_metrics.py:29-35 | after any run an open request can be counted, with the status it shows, and leave |
| Luhn.IsLuhnValid | app/redaction.py:70-81 | the loop decides the modulus-10 formula over 13 to 19 digits |
| Luhn.ZerosAreValidIff | app/redaction.py:70-81 | all zeros are valid at 13 to 19 digits and at no other length |
| Luhn.OneDigitTotal | app/redaction.py:74-80 | alone, a digit counts once, or as the digits of its double on every second place from the right |
| Luhn.DigitsCountAlone | app/redaction.py:73-80 | within a number each digit counts as it does alone |
| Luhn.OneWrongDigitIsDetected | app/redaction.py:70-81 | a valid number with one digit changed is never valid |
| Luhn.SwapsAreDetectedExceptZeroNine | app/redaction.py:70-81 | a valid number with two neighbours swapped stays valid exactly when they are equal or are 0 and 9 |
| Luhn.ExactlyOneCheckDigit | app/redaction.py:70-81 | exactly one check digit completes any prefix |
| Luhn.SeparatorsAreIgnored | app/redaction.py:71 | inserted separators change neither digits nor verdict |
| Redaction.TokenIsToken | app/redaction.py:67-108 | a token has the form that the sanitizer recognizes |
| Redaction.IsTokenIff | app/redaction.py:67 | the tokens are exactly the texts of the documented form |
| Redaction.SameDigitsSameToken | app/redaction.py:99-172 | whatever the digest, runs with the same digits get the same kind, and the same token exactly if they are valid cards, agree up to outer spaces or their messages collide |
| Redaction.DashChangesInvalidToken | app/redaction.py:99-172 | a dash inside a run that fails the check keeps its digits and changes its token, unless their two messages collide |
| Redaction.InvalidCardsCanDiffer | app/redaction.py:99-172 | such runs exist among those of 13, 15, 17 and 19 digits |
| Redaction.SomeDigestTellsApart | app/redaction.py:99-108 | for any two texts there is a digest of 32 hex digits under which their messages do not collide |
| Redaction.DigitKindTokens | app/redaction.py:99-118 | whatever the digest, card, phone and social-security texts get the same token exactly when they have the same digits or their messages collide |
| Redaction.EmailTokens | app/redaction.py:99-118 | whatever the digest, mail addresses get the same token exactly when they agree up to case and outer spaces or their messages collide |
| Redaction.PlainKindTokens | app/redaction.py:99-118 | whatever the digest, texts of every other kind get the same token exactly when they agree up to outer spaces or their messages collide |
| Redaction.MessagesAreDistinct | app/redaction.py:103-107 | the messages that are digested differ for different kinds, and within a kind for different canonical values |
| Redaction.StripIs | app/redaction.py:113 | stripping takes away exactly the white space around a text |
| Redaction.Replace | app/redaction.py:157-172 | time stamps are kept, invalid cards become numeric identifiers, everything else matched becomes a token |
| Redaction.RewriteIs | app/redaction.py:157-172 | a match gets the token of its own kind, except that a card number that fails the check gets a numeric one and a time stamp stays |
| Redaction.RewriteFirst | app/redaction.py:174 | the pieces of a text are rewritten one by one, in order |
| Redaction.OneMatchIsReplaced | app/redaction.py:154-174 | what is around a match stays as it is |
| Redaction.OccurrencesAre | app/redaction.py:171 | the count of a kind is the number of matches that end as that kind |
| Redaction.Redact | app/redaction.py:154-174 | redacting a text rewrites every match of its scan once, and the counts are those of the final kinds |
| Redaction.Substitute | app/redaction.py:154-174 | the loop over the matches yields the rewritten text and the counts |
| Redaction.WordyIsUnmatched | app/redaction.py:14-32 | in a text without '@' and with no digit but the last character the scan finds nothing but time stamps |
| Redaction.KeptIff | app/redaction.py:154-174 | redaction leaves a text as it is exactly when the scan finds nothing but time stamps in it |
| Redaction.WholeMatchBecomesToken | app/redaction.py:157-174 | a text that is one match as a whole becomes one token |
| Sanitizer.SanitizedPosition | app/redaction.py:121-151 | position by position the shape is kept and each string follows its innermost dictionary key through any lists |
| Sanitizer.ServerIdentifiersAreKept | app/redaction.py:144-146 | server identifiers are kept verbatim at any depth, in any letter case, with or without the suffix |
| Sanitizer.SecretBecomesToken | app/redaction.py:144-149 | a secret field becomes a token, and sanitizing that again changes nothing |
| Sanitizer.SecretFieldsYieldTokens | app/redaction.py:121-151 | at any depth a string under each of the seventeen secret names, in any letter case and with or without the suffix, becomes the token of that name, unless it is empty or a token |
| Sanitizer.SecretTokens | app/redaction.py:144-149 | two texts under a secret name get the same token exactly when they agree up to outer spaces or their messages collide |
| Sanitizer.KindIs | app/redaction.py:144-147 | a field is secret, or an identifier, exactly if it is one of the listed names, up to letter case and suffix |
| Sanitizer.OtherFieldsAreRedacted | app/redaction.py:137-151 | at any depth a string under any other name is redacted, unless it is a token |
| Sanitizer.TextIdempotentIff | app/redaction.py:137-151 | sanitizing a string twice is sanitizing it once exactly when the field is not ordinary, the string or its redaction is one token, or the scan finds nothing but time stamps in the redacted string |
| Sanitizer.IdempotentIff | app/redaction.py:121-151 | the same for any nested value |
| Sanitizer.SettledByPosition | app/redaction.py:121-151 | that condition holds of a nested value exactly when it holds of the string at every position, under its innermost dictionary key |
| SanitizeTwice.SanitizingTwiceCanDiffer | app/redaction.py:121-174 | a sound digest and scan and a text that sanitizing twice changes twice |
| Sanitizer.GuardAcceptsSanitizedIff | contexts/governance/publisher.py:50-63 | the publisher accepts a sanitized payload exactly when it is settled |
| Sanitizer.GuardAcceptsSimplePayloads | contexts/governance/publisher.py:50-63 | so it accepts every sanitized payload whose ordinary texts are each without a match or one match as a whole |
| Sanitizer.GuardAcceptsIff | contexts/governance/publisher.py:50-67 | what the guard accepts: a serializable event in whose payload there is no tuple and every string, under its innermost key, is an identifier, a token, or, unless the key is secret, free of matches; and the same of every header |
| Sanitizer.NoSecretPassesInClear | contexts/governance/publisher.py:50-67 | nothing that passes the guard shows a secret field in clear |
| Sanitizer.PublicationLog.constructor | contexts/governance/publisher.py:98-100 | an empty record with a limit of at least one |
| Sanitizer.PublicationLog.Publish | contexts/governance/publisher.py:157-162 | a refused event raises and is not recorded; the record holds the latest accepted ones |
| Chunking.SplitLosesNothing | contexts/ingestion/services.py:40-46 | joining the heads of the chunks gives back the text exactly when the chunks leave no gaps or one chunk holds everything, and the chunk count is the length divided by the step, rounded up |
| Chunking.ChunkAt | contexts/ingestion/services.py:46 | chunk j is the slice that starts at j steps |
| Chunking.StartIsProduct | contexts/ingestion/services.py:46 | chunk j starts at j times the step |
| Chunking.WindowsSurvive | contexts/ingestion/services.py:40-46 | every window of at most overlap + 1 characters lies inside one chunk |
| Chunking.LongerWindowsAreCut | contexts/ingestion/services.py:40-46 | one character more is too many |
| Chunking.ChunkIdsDiffer | contexts/ingestion/services.py:24-27 | the ids of one ingestion differ whatever their random parts are |
| Chunking.RequestsShareNoId | contexts/ingestion/services.py:24-27 | requests with different ids of equal length share no chunk id |

## Left out

- Floating point: amounts, clocks and durations are reals, so rounding of the bucket, the sums and the scores is not modelled; rounding a score to four digits is a parameter.
- `ThreadPoolExecutor(...)` is taken not to raise: it stands outside the `try` of `call`, where a raise would lose the slot.
- The published bulkhead gauge: it is written outside the lock, so nothing is claimed about it.
- The start of the worker after a raising `submit`: an item that was queued before the raise is taken never to run.
- The cloud and library back ends (object stores, Chroma, OpenSearch, Ollama, the Kafka client, the LangChain splitter): they are calls that succeed or fail.
- Partial writes across Chroma and OpenSearch in `RetrievalStore.add`: claims about documents are for memory mode, where `add` cannot fail after changing the store.
- Sagas.Service.Ingest: requests are served one at a time; the interleaving of concurrent requests on the shared store is not modelled.
- Sagas.Service.IngestPayment: field validation and the identifier tokens of the payment are one call that may fail.
- EventPayloads.ScriptedIsAccepted: time stamps that the scan takes for one time stamp, exception and model class names that it leaves alone, and currencies without digits are hypotheses of this and the later results; the names are so when they hold no '@' and at most a final digit (`EventPayloads.WordyNamesFit`). The handlers pass no custom headers, so none are guarded.
- EventPayloads.IngestionIsNeverRefused: a publication is taken to raise exactly when the guard refuses its event; a Kafka constructor that escapes with something other than an `Exception` is treated in `publisher_connection.dfy` only.
- The payloads of audit records, beyond the fields that the properties speak of.
- `_headers_for`, delivery failures reported by Kafka, and the errors of flushing and closing a producer: they are only logged.
- Regular expressions and the keyed digest: the pattern scan is a function from a text to its segments, the digest a function; that segments join to the text, and that a match has an '@' or two digits but no '<', are hypotheses where they are needed.
- Unicode: letters, digits and white space are the ASCII ones.
- Dictionary keys other than strings in payloads, and invalid UTF-8 in headers.
- The hash of the identity triple: the triple itself is the key of the history.
- Dates as text and their parsing: days are numbers.
- `cvss3`, `severity` and the readers of scanner output: finite tables and format conversion.
- The text format of `exposition`, the process metrics, `app/health.py`, `app/settings.py`, `app/safe_logging.py` and the key format of `app/audit.py`.
- The rest of `ops/`, `streaming/`, `ansible/`, charts and configuration.
