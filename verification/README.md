# Verified model of the fraud-detection consumer

The project models how a transaction message travels through the service: the Redis
guard that keeps a message from being processed twice, the consumer loop with its
retries, dead letters and offset commits, the evaluation that stores a transaction and
its alert in one database transaction, and the life of an alert afterwards. Everything is
stated for whole runs: any interleaving of processors, any failed call or lost reply, any
crash and restart, any history of evaluations, reviews and configuration changes.

## How the model is built

- **Redis and the guard** (`Redis.dfy`, `Idempotency.dfy`). A server holds keys with a
  text and an expiry (milliseconds) and a clock; a plan says how much time passes before
  each command and whether it fails before or after taking effect. `Service` and `Guard`
  are the idempotency service and its context manager, call by call.
- **The shared protocol** (`Protocol.dfy`). Any number of processors interleave one remote
  call at a time: read the marker, fetch the result or take the lock, evaluate, mark,
  release. Time passes anywhere, every call may fail either way, and a processor may be
  killed anywhere. A log keeps what happened. `MutualExclusion.dfy`,
  `ChargedDuplicates.dfy`, `StaleReaders.dfy`, `SingleConsumer.dfy` and
  `CommitOrigins.dfy` prove what holds of every run; `Deduplication.dfy` proves that a
  fault-free consumer does what a set of seen ids would make it do.
- **The consumer** (`BaseConsumer.dfy`, `Delivery.dfy`, `TransactionConsumer.dfy`). The base
  class leaves `process` abstract; there it is any function of the world it works on, so
  the loop is proved for every subclass. `TransactionConsumer.Process` is the subclass's
  `process`; its contract says that whatever fails it does to Redis and to the database
  exactly what the function `Delivery.Handled` does, and answers as it does. `Handled` is
  made of the steps of one processor of the shared protocol.
- **The whole pipeline** (`Pipeline.dfy`). The consumer loop over a log of messages, with
  `Handled` as its `process`, kills and restarts included: Kafka, Redis and the database
  in one state.
- **The database** (`Database.dfy`, `Evaluation.dfy`, the repositories, `DatabaseRuns.dfy`).
  A session works on its own view until it commits; sequence values and ids are not given
  back on rollback. Times are microseconds, UTC. Row ids are drawn from a supply that
  never repeats, standing for `uuid4`.
- **Redis and the database together** (`AlertAccounting.dfy`). Joint runs of processors and
  database; deliveries are such runs, so the bounds on commits become bounds on alerts.
- **Pure parts**: `AlertState.dfy`, `FraudDetector.dfy`, `ConfigStore.dfy`,
  `ReferenceNumbers.dfy`, `Decimal.dfy`.

## What does not hold, and exactly when it does

- *Exactly-once evaluation.* False even without failures: the marker is not read again
  under the lock (`StaleReaders.BothReadersEvaluate`). While no critical section outlives
  its lock, a commit repeats an earlier one exactly if a charge (a failure or kill between
  commit and mark, or an expiry of the marker) came before it or it was made on an outdated
  reading (`CommitOrigins.RepeatsExactly`); for one consumer, without any condition on
  time, exactly if a charge came before it (`CommitOrigins.SoloRepeatsExactly`).
- *Mutual exclusion.* The lock carries no owner. In every run, exclusion holds throughout
  exactly if no processor ever takes the lock, run out or deleted, while another is inside
  (`MutualExclusion.ExclusiveExactlyWithoutIntruders`;
  `MutualExclusion.OverrunBreaksExclusion` is a run with such an intruder). An overrun alone
  does not break it; in a state reached in time, another processor asking for the lock does
  exactly if it asks no earlier than the lock runs out
  (`MutualExclusion.ExclusionLastsExactlyAsTheLock`).
- *Every committed message was evaluated, known or dead-lettered.* False in two ways. A
  lock left behind by a lost reply, a failed release or a kill makes a later attempt end
  quietly with nothing evaluated (`Pipeline.LoopLosesMessage`); `Pipeline.AnswerExactly`
  says, from the state before a call, exactly when it is answered so. And Kafka may refuse
  the dead letter, which is swallowed (`Pipeline.RefusedLetterLosesMessage`); a delivery
  that gives up and commits leaves no letter exactly then (`BaseConsumer.LetterExactly`).
  With a dead-letter topic nothing else loses a message with an id
  (`Pipeline.LostOnlyByRefusedLettersOrLeftLocks`).
- *Keys determine message type and id.* Two message types share a key exactly when one is
  the other plus a colon and more (`Redis.KeysMeetExactlyOnOverlap`).
- *The migration's reference numbers equal the service's.* Exactly up to 99999
  (`ReferenceNumbers.BackfillAgrees`).
- The docstring of `_next_reference_number` promises gap-free numbers; the sequence is not
  rolled back with the transaction, so the model follows the code: numbers are distinct,
  not gap-free.

## Model

| member | source | states |
|---|---|---|
| `Protocol.ResultRoundTrip` | app/consumers/idempotency.py:44-75 | a stored result reads back as itself; an empty or missing one is stored as "1" and reads as none |
| `Redis.KeysApart` | app/consumers/idempotency.py:26-28 | lock keys are never marker keys and each marker key has its own lock key |
| `Redis.KeyDeterminesId` | app/consumers/idempotency.py:26-28 | within one message type, equal keys mean equal external ids |
| `Redis.KeysMeetExactlyOnOverlap` | app/consumers/idempotency.py:26-28 | two message types share a key for some ids if and only if one extends the other by a colon; types without colons never do |
| `Idempotency.Service.IsProcessed` | app/consumers/idempotency.py:30-42 | answers whether the marker is live at the instant of the call |
| `Idempotency.Service.MarkProcessed` | app/consumers/idempotency.py:44-60 | sets the marker to the encoded result for the configured time, unless the call fails before taking effect |
| `Idempotency.Service.GetResult` | app/consumers/idempotency.py:62-75 | the decoded result of a live marker, else none |
| `Idempotency.Service.AcquireLock` | app/consumers/idempotency.py:77-97 | sets the lock key exactly when it is not live and says whether it did; five minutes unless told otherwise |
| `Idempotency.Service.ReleaseLock` | app/consumers/idempotency.py:99-102 | deletes the lock key, whoever set it |
| `Idempotency.Guard.Enter` | app/consumers/idempotency.py:130-151 | the body may run exactly when the marker was not live and the lock was taken; all failure cases, with the exact effect on Redis |
| `Idempotency.Guard.Exit` | app/consumers/idempotency.py:153-161 | marks only on success with a result, releases a taken lock whether or not marking worked, raises exactly if one of the two failed |
| `MutualExclusion.MutualExclusion` | app/consumers/idempotency.py:77-161 | for any interleaving with failures, lost replies and kills: if no critical section of a key outlives the lock, at most one processor is inside and the lock is live while it is |
| `MutualExclusion.ExclusiveExactlyWithoutIntruders` | app/consumers/idempotency.py:77-161 | in every run exclusion holds throughout if and only if no processor takes the lock, run out or deleted, while another is inside |
| `MutualExclusion.ExclusionLastsExactlyAsTheLock` | app/consumers/idempotency.py:77-102 | in a state reached in time, with one processor inside, another that waits for the lock keeps exclusion if and only if it asks before the lock runs out |
| `MutualExclusion.OverrunBreaksExclusion` | app/consumers/idempotency.py:99-102 | a run in which a critical section outlives its lock and a second processor enters |
| `ChargedDuplicates.ChargedBetween` | app/consumers/idempotency.py:130-161 | in an accounted log, between two commits of a key lies a charge, or the later one read the marker too early |
| `ChargedDuplicates.CountsAddUp` | app/consumers/idempotency.py:130-161 | in an accounted log, commits are at most charges plus stale commits plus one open commit |
| `ChargedDuplicates.ConcurrentDuplicatesAreCharged` | app/consumers/idempotency.py:130-161 | any number of processors, no overrun: commits of a key are at most 1 + failures and kills between commit and mark + marker expiries + commits by processors that read before the mark; and one of these lies between any two commits |
| `CommitOrigins.DuplicatesAndCompletionsWereCommitted` | app/consumers/idempotency.py:130-161 | any number of processors, no condition on time: a message recognised as a duplicate or processed to the end, and a set marker, have a committed evaluation behind them |
| `CommitOrigins.RepeatsExactly` | app/consumers/idempotency.py:130-161 | no overrun: a commit repeats an earlier one if and only if a charge came before it or it was made on an outdated reading |
| `CommitOrigins.ConcurrentOnceExactly` | app/consumers/idempotency.py:130-161 | no overrun: a key is committed at most once if and only if no commit of it comes after a charge or on an outdated reading |
| `CommitOrigins.SoloRepeatsExactly` | app/consumers/transaction_consumer.py:86-97 | one consumer: a commit repeats an earlier one if and only if a charge came before it |
| `CommitOrigins.OnceExactly` | app/consumers/transaction_consumer.py:86-97 | one consumer: a key is committed at most once if and only if no commit of it comes after a charge |
| `StaleReaders.StaleReaderBound` | app/consumers/idempotency.py:130-151 | from any state, as long as the marker stays live, set again or not: every evaluation that starts belongs to a processor already between its read and the lock, so there are at most as many as those |
| `StaleReaders.LiveUntilExpiry` | app/consumers/idempotency.py:44-60 | in every run a marker is live all along until the expiry it had, and only ever extended |
| `StaleReaders.MarkersWithinTtl` | app/consumers/idempotency.py:44-60 | in every reachable state a marker expires within the configured time from now |
| `StaleReaders.BothReadersEvaluate` | app/consumers/idempotency.py:137-151 | a run without failure, expiry or overrun that evaluates one key twice |
| `SingleConsumer.DuplicatesAreCharged` | app/consumers/transaction_consumer.py:86-97 | in every single-consumer run with retries, redelivery, crashes and restarts: commits of a key are at most 1 + failures and kills between commit and mark + marker expiries, and one of these lies between any two |
| `SingleConsumer.SkipsExactlyOnLeftLocks` | app/consumers/idempotency.py:137-151 | a single consumer is told "lock held" if and only if a lock left behind has not run out |
| `SingleConsumer.LeftLockLosesMessage` | app/consumers/transaction_consumer.py:86-93 | a run in which a failed evaluation and a failed release make the retry end quietly with nothing committed |
| `TransactionConsumer.Consumer.ProcessTransaction` | app/consumers/transaction_consumer.py:118-144 | succeeds exactly with valid data, a detector, an engine score and no failed statement, with the evaluation's result; the tables change exactly if the unit of work landed, and then as the evaluation says |
| `TransactionConsumer.Consumer.Work` | app/consumers/transaction_consumer.py:96-97 | the unit of work is committed and told if and only if the data is valid, the detector and the score are there and no statement fails |
| `TransactionConsumer.Consumer.Evaluate` | app/consumers/transaction_consumer.py:96-97 | under a taken lock: processed if and only if the data is valid, the detector and the score are there, no statement fails and marking and releasing work; evaluated whenever the first four hold; the marker then holds the result |
| `TransactionConsumer.Consumer.Process` | app/consumers/transaction_consumer.py:71-116 | by the message, the state of Redis before, the planned calls and how the body goes: bad JSON raises, a missing id returns untouched, a failed call raises, a live marker or lock skips with nothing evaluated, else processed exactly if body, mark and release work; Redis, processors and database end as handling the message leaves them |
| `Pipeline.AnswerExactly` | app/consumers/transaction_consumer.py:71-116 | wherever a consumer got to, the state before a call decides its answer: duplicate if and only if the marker is live, else skipped if and only if a lock left behind has not run out, else evaluated, with success if and only if evaluation, mark and release work |
| `Delivery.PlainMessages` | app/consumers/transaction_consumer.py:75-83 | a message without id returns normally, malformed text raises, and neither touches anything |
| `Delivery.ResultDictFields` | app/consumers/transaction_consumer.py:136-144 | the stored result: ids, score, decision by the bounds of the tiers, an alert id exactly from score 40 on |
| `Delivery.KillsEndTheCall` | app/consumers/transaction_consumer.py:71-116 | a call is cut short if and only if the consumer is killed in it |
| `Pipeline.KilledBeforeTheWork` | app/consumers/transaction_consumer.py:86-97 | a kill before the work: database and marker as before, the lock left until it runs out |
| `Pipeline.KilledBeforeTheMark` | app/consumers/transaction_consumer.py:86-97 | a kill between commit and mark: evaluation committed, marker not set, the charge logged |
| `Pipeline.KilledAfterTheMark` | app/consumers/transaction_consumer.py:86-97 | a kill after the mark: evaluation committed, marker live |
| `Pipeline.EveryCommittedMessageIsAccountedFor` | app/consumers/base.py:99-226 | over any log, runs, kills and restarts: a message below a committed offset has no id, or has a letter, or had its letter refused by Kafka, or has a committed evaluation and its stored row, or was skipped while a lock left behind on its key had not run out; without a dead-letter topic it may be discarded |
| `Pipeline.LostOnlyByRefusedLettersOrLeftLocks` | app/consumers/base.py:152-226 | with a dead-letter topic a committed message with an id was processed or has a letter unless Kafka refused its letter or a lock was left behind on its key |
| `Pipeline.FailedReleaseLosesMessage` | app/consumers/idempotency.py:99-161 | after a failed evaluation and a failed release the next attempt is skipped with nothing evaluated if and only if it asks within the five minutes the lock was taken for |
| `Pipeline.LoopLosesMessage` | app/consumers/base.py:152-190 | one failed evaluation and one failed release, and a retry after the pause of the loop: the offset is committed, no letter written, no table changed |
| `Pipeline.RefusedLetterLosesMessage` | app/consumers/base.py:183-226 | while Redis is down and Kafka refuses the letter: the offset is committed, no letter written, no table and no key changed |
| `Pipeline.PipelineAlertsAreCharged` | app/consumers/base.py:99-190 | over any log, runs, kills and restarts the alerts of a transaction grow by at most 1 + charges of its key |
| `AlertAccounting.Halves` | app/consumers/transaction_consumer.py:86-97 | a joint run is a run of the processors beside a history of the database |
| `AlertAccounting.CommitsAreEvaluations` | app/core/evaluation_service.py:148-152 | in every joint run the commits of a key are the committed evaluations of its transaction not made elsewhere |
| `AlertAccounting.AlertsAreCharged` | app/consumers/transaction_consumer.py:86-97 | one consumer with retries, kills and restarts, beside reviews, configuration changes and evaluations elsewhere: the alerts of a transaction grow by at most 1 + failures and kills between commit and mark + marker expiries + evaluations elsewhere |
| `AlertAccounting.ConcurrentAlertsAreCharged` | app/consumers/idempotency.py:130-161 | the same for any number of consumers without overrun, plus the commits of processors that read too early |
| `AlertAccounting.DeliveriesAreMoves` | app/consumers/transaction_consumer.py:71-116 | every sequence of deliveries, with any failures, is a joint run of one consumer |
| `AlertAccounting.DeliveredAlertsAreCharged` | app/consumers/transaction_consumer.py:71-116 | so the alerts of a transaction after any deliveries grow by at most 1 + charges of its key |
| `Deduplication.DeliverIsDedup` | app/consumers/transaction_consumer.py:86-97 | one delivery without Redis fault or expiry does to the database what one step of the seen-ids form does |
| `Deduplication.RefinesDeduplication` | app/consumers/transaction_consumer.py:71-116 | over any sequence of attempts without Redis fault, kill or expiry the database equals the seen-ids form's, live markers are the ids seen, locks are free between messages and no message is skipped for a held lock |
| `Pipeline.PipelineRefinesDeduplication` | app/consumers/base.py:99-190 | the consumer loop over any runs and restarts, without Redis fault, kill inside a call or expiry: the database is what the seen-ids form makes of the deliveries made, and no message was skipped for a held lock |
| `Deduplication.OneSuccessPerId` | app/consumers/transaction_consumer.py:86-97 | in the seen-ids form each id is evaluated with success at most once, exactly once if seen |
| `BaseConsumer.RetryContract` | app/consumers/base.py:152-190 | per delivery: attempt k + 1 is made exactly if the k before it failed, at most max_retries; commit at most once more, dead-letter step exactly when all attempts fail, a letter with the message and the last failure exactly if it is then sent, normal return exactly with one acknowledged commit, cut short exactly if one of its calls was killed, total sleep |
| `BaseConsumer.AttemptExactly` | app/consumers/base.py:158-166 | an attempt fails exactly if process raised or the commit failed, with or without effect; what the broker and the outcomes hold afterwards |
| `BaseConsumer.RetryDies` | app/consumers/base.py:152-190 | a delivery is cut short if and only if one of its process, commit or send calls was killed |
| `BaseConsumer.ReasonExactly` | app/consumers/base.py:162-163 | the error of a failed attempt is what process or the commit raised |
| `BaseConsumer.LetterFields` | app/consumers/base.py:211-220 | topic, partition, offset, timestamp, value and error of the letter |
| `BaseConsumer.LetterExactly` | app/consumers/base.py:180-226 | a delivery that gives up and commits leaves no letter if and only if Kafka refused the send, else the letter with the last failure |
| `BaseConsumer.BackoffClosedForm` | app/consumers/base.py:176-178 | n failing attempts sleep 2^n - 2 seconds up to n = 5, 30(n - 4) from there, never more than 30(n - 1) |
| `BaseConsumer.RunIsSafe` | app/consumers/base.py:99-122 | a run keeps committed offsets safe; a message dropped for a stop stays above the committed offset |
| `BaseConsumer.RunTrace` | app/consumers/base.py:99-122 | a run handles its messages one after another until a stop is asked for, a delivery does not return normally, or none is left |
| `BaseConsumer.RunsToTheEndExactly` | app/consumers/base.py:109-113 | a run takes all messages that arrive if and only if none finds a stop asked for and every delivery in turn returns normally |
| `BaseConsumer.RunHandlesAll` | app/consumers/base.py:109-113 | then every partition has moved on by as many as arrived of it, with an outcome for each |
| `BaseConsumer.RunOnceExactly` | app/consumers/base.py:99-122 | what a run that does not start, or whose stop raises, ends with |
| `BaseConsumer.RestartsFromCommitted` | app/consumers/base.py:50-80 | a later run moves every partition on from its committed offset, with an outcome for each message it takes |
| `BaseConsumer.CommittedOffsetsAreSafe` | app/consumers/base.py:99-190 | for any process, over any number of runs, crashes and restarts, every offset below a committed offset has reached an outcome |
| `BaseConsumer.OutcomesAreTruthful` | app/consumers/base.py:152-226 | for any process that upholds a meaning of its answers: every recorded answer means what it claims, every dead-lettered message had a send of its own that left its letter or was refused by Kafka, nothing is discarded where a dead-letter topic is configured |
| `BaseConsumer.Consumer.ProcessMessage` | app/consumers/base.py:192-204 | one call of the process of the subclass: the world it leaves, its answer recorded |
| `BaseConsumer.Consumer.CommitOffsets` | app/consumers/base.py:161-161 | commits the position of every partition, in all five ways the call can go: what the broker then has, and whether it fails |
| `BaseConsumer.Consumer.SendToDeadLetters` | app/consumers/base.py:206-226 | a sent letter carries topic, partition, offset, timestamp and value of the message and the last error text; a Kafka error is swallowed, any other propagates |
| `BaseConsumer.Consumer.ProcessWithRetry` | app/consumers/base.py:152-190 | the loop computes the retry function, of which the contract is proved |
| `BaseConsumer.Consumer.Run` | app/consumers/base.py:99-122 | the loop computes the run function; ended with all messages taken, every partition has moved on by as many as arrived; start and stop may raise; a started consumer is stopped in every case but a kill, one whose start raises is not |
| `Evaluation.Classify` | app/core/fraud_detector.py:87-101 | decision, tier name and description of a score all belong to its one tier |
| `FraudDetector.TiersPartitionScores` | app/core/fraud_detector.py:29-33 | every score 0..100 lies in exactly one tier, and its name converts to a decision without raising |
| `FraudDetector.TierByBounds` | app/core/fraud_detector.py:29-33 | decision, tier name and description by the bounds 40 and 80 |
| `FraudDetector.OtherNames` | app/adapters/pylitmus_adapter.py:80-82 | no decision counts as approve; a name of no tier raises, and is described as unknown |
| `FraudDetector.GetDecisionTierDescription` | app/core/fraud_detector.py:95-101 | the description of the first tier of that name, or "Unknown tier" |
| `Evaluation.AutoEscalate` | app/core/evaluation_service.py:155-181 | confirms from 100 on, else escalates from the configured threshold on; raises exactly if the review is refused or a statement fails |
| `Evaluation.FreshAlertAccepts` | app/core/evaluation_service.py:145-181 | the system's review of a fresh alert is never refused |
| `Evaluation.OutcomeOfEvaluation` | app/core/evaluation_service.py:130-181 | one alert exactly from score 40 on; CONFIRMED at 100, ESCALATED from the threshold on, else PENDING; no other alert changes |
| `Evaluation.StoredAlertFields` | app/core/evaluation_service.py:130-181 | every column of the stored alert, the reviewer, time and status of the system's review included |
| `Evaluation.ResultNamesStoredRows` | app/core/evaluation_service.py:119-143 | the answer names the stored transaction and, from score 40 on, the stored alert |
| `Evaluation.AnswerIsOfStoredRows` | app/core/evaluation_service.py:119-143 | the answer has the request's id, the engine's score, the decision and tier of that score by its bounds, and from score 40 on the columns of the stored alert |
| `Evaluation.RaiseAlert` | app/core/evaluation_service.py:130-146 | the new alert with its final status, or a failed statement |
| `Evaluation.Write` | app/core/evaluation_service.py:81-146 | all writes before the commit; succeeds exactly if the engine and every statement do; the answer is about the request, the score and the written rows |
| `Evaluation.Evaluate` | app/core/evaluation_service.py:57-152 | succeeds exactly if engine, statements and commit do, with an answer about the request, the score and the stored rows; the stored tables are unchanged by every failure before the commit takes effect |
| `DatabaseRuns.AlwaysSound` | app/core/evaluation_service.py:57-152 | in every reachable state ids and references are unique, alerts refer to stored transactions and have a score and decision that call for one, audit fields match the status |
| `DatabaseRuns.EmptyIsSound` | app/core/evaluation_service.py:57-152 | a database without transactions and alerts is such a start |
| `DatabaseRuns.AlertsMatchEvaluations` | app/core/evaluation_service.py:130-150 | over every history the alerts of a transaction are as many as its committed evaluations that were not approved |
| `DatabaseRuns.ReferencesDistinct` | app/repositories/alert_repository.py:39-52 | reference numbers are pairwise distinct in every reachable state, rolled back evaluations included |
| `DatabaseRuns.StoredRowIsForever` | app/repositories/transaction_repository.py:56-96 | once stored, the row of an external id never changes |
| `DatabaseRuns.AlertLifecycle` | app/repositories/alert_repository.py:86-120 | over every history an alert changes status at most twice, never returns to PENDING, never leaves CONFIRMED or DISMISSED |
| `DatabaseRuns.EscalationUsesLastThreshold` | app/core/evaluation_service.py:174-181 | after any history from any store an alert from score 40 to 99 is escalated exactly if the score reaches the last configured threshold, or the initial one if none was set |
| `DatabaseRuns.FirstThreshold` | app/models/config.py:19-22 | an empty store and one with the seeded rows begin with a threshold of 90 |
| `DatabaseRuns.UnreadableThreshold` | app/core/evaluation_service.py:174-175 | a stored threshold that is no integer counts as 90 |
| `TransactionRepository.FirstWriteWins` | app/repositories/transaction_repository.py:56-96 | after any upserts external ids are unique and each is answered with the row of its first write |
| `TransactionRepository.UpsertStep` | app/repositories/transaction_repository.py:82-96 | an upsert answers with the stored row and leaves every other external id alone |
| `TransactionRepository.FirstWriteFields` | app/repositories/transaction_repository.py:56-96 | the columns of the row a first write makes, the time of receipt standing in for a missing one |
| `TransactionRepository.Repository.Upsert` | app/repositories/transaction_repository.py:56-96 | the stored row, inserted only if the external id is new; succeeds exactly if both statements do |
| `AlertState.RegistryIsExact` | app/core/alert_state.py:122-143 | the registry answers exactly the four status names, each with its own state |
| `AlertState.TransitionsExactly` | app/core/alert_state.py:62-116 | the allowed moves by name; a refusal names what is allowed |
| `AlertState.RankFalls` | app/core/alert_state.py:37-48 | a transition is allowed exactly if it lowers the rank; a refused one changes nothing |
| `AlertState.Lifecycle` | app/core/alert_state.py:62-116 | over every sequence of review attempts: at most two changes, no way back to PENDING, terminal states are final |
| `AlertRepository.ReviewStep` | app/repositories/alert_repository.py:86-120 | a review touches only the named alert's status and audit columns, along the lifecycle, and keeps audit fields consistent; a refused one changes nothing |
| `AlertRepository.ReviewWrites` | app/repositories/alert_repository.py:86-120 | accepted exactly if the lifecycle allows the move; then status, reviewer id, reviewer name, time and notes are written and no other column |
| `AlertRepository.NewAlertFields` | app/repositories/alert_repository.py:69-84 | every column of a new alert |
| `DatabaseRuns.ReviewTakesEffect` | app/repositories/alert_repository.py:86-120 | in every reachable state a review takes effect exactly if allowed, on the one alert, in these columns |
| `AlertRepository.StatsConserve` | app/repositories/alert_repository.py:122-146 | the buckets sum to the number of alerts and the pending count is its bucket |
| `AlertRepository.ReviewMovesOneUnit` | app/repositories/alert_repository.py:99-111 | an accepted review moves exactly one unit between two different buckets |
| `AlertRepository.DailyVolumeIsExact` | app/repositories/alert_repository.py:148-170 | consecutive ascending dates ending today, each with the number of all alerts of that date, even if midnight passes between the clock reads |
| `AlertRepository.DatesAreDays` | app/repositories/alert_repository.py:148-170 | a date is the 24 hours of one UTC day |
| `AlertRepository.Repository.Create` | app/repositories/alert_repository.py:54-84 | a PENDING alert numbered from the sequence, whose value is used up even if a later statement fails |
| `AlertRepository.Repository.Review` | app/repositories/alert_repository.py:86-120 | not found, refused or stamped; succeeds exactly if every statement does |
| `ReferenceNumbers.ParseFormat` | app/repositories/alert_repository.py:52-52 | reading a reference number back gives the sequence value |
| `ReferenceNumbers.FormatShape` | app/repositories/alert_repository.py:52-52 | "FRD-" and at least five digits |
| `ReferenceNumbers.FormatInjective` | app/repositories/alert_repository.py:52-52 | two sequence values share a reference number only if equal |
| `ReferenceNumbers.FitsColumn` | app/models/alert.py:44-47 | a reference number fits its 20 characters if and only if the value is below 10^16 |
| `ReferenceNumbers.BackfillAgrees` | alembic/versions/d4e5f6a7b8c9_add_human_readable_ids.py:56-61 | the backfilled form equals the service's if and only if the value is at most 99999; beyond, it no longer determines the value |
| `ConfigStore.GetAgreesWithGetAll` | app/repositories/config_repository.py:19-49 | for every store one lookup agrees with the merged view |
| `ConfigStore.LastUpdateWins` | app/services/config_service.py:14-47 | after any partial updates each key reads as last set, the other key untouched; values parse, so no fallback is used |
| `ConfigStore.LastThresholdWins` | app/repositories/config_repository.py:27-41 | for every store, parsing or not, the threshold reads as last set, else as before |
| `ConfigStore.ReadsExactly` | app/repositories/config_repository.py:19-41 | a stored value, else the default of its key; as an integer, else the caller's default |
| `ConfigStore.PutWrites` | app/repositories/config_repository.py:51-66 | value and description after a write, every other key untouched |
| `ConfigStore.UpdateWrites` | app/services/config_service.py:31-47 | the rows an update writes, with texts and notes, and that it writes no others |
| `ConfigStore.BoundsKept` | app/schemas/config.py:13-17 | the bounds the request schema checks are bounds of everything read back |
| `ConfigStore.Repository.ReadInt` | app/repositories/config_repository.py:27-41 | the parsed value, or the default for a missing or non-integer one |
| `ConfigStore.Repository.Upsert` | app/repositories/config_repository.py:51-66 | inserts or updates, keeping the old description when none is given; succeeds exactly if all three statements do |
| `ConfigStore.UpdateConfig` | app/services/config_service.py:31-47 | writes only the given keys and answers with the values then stored |
| `Decimal.ParsePrint` | app/services/config_service.py:31-47 | `int(str(n))` is `n` |
| `Decimal.LettersAreNoNumber` | app/repositories/config_repository.py:27-41 | a text with any character but digits, signs, underscores and spaces is no integer |

## Left out

- `auto_offset_reset`: a partition without a committed offset starts at offset 0, as with the default "earliest" (app/config.py:40).
- The rules engine (pylitmus): an assessment is any score from 0 to 100, or a raised error, with the tier that contains the score.
- Triggered rules, processing times and the average score: carried through or averaged, with nothing depending on them.
- Feature enrichment and the on-demand loading of rules: the consumer passes a warm detector and switches enrichment off.
- The count-based fallback for reference numbers: it serves a database from before the migration.
- Kafka group rebalances: one consumer owns all partitions for the length of a run; offsets of a partition have no gaps.
- The flush of unsent letters in `stop`: every send is awaited, so there are none; `stop` may raise.
- Process signals, logging, spans, lag reports and the HTTP, gRPC, rule, filter and authentication layers.
- Two analyst reviews of one alert in overlapping sessions: reviews are serialised, as no row lock is taken by the code.
- Text beyond ASCII: `int` is modelled on ASCII text, case conversion on ASCII letters.
- The database session time zone: the cast of `created_at` to a date is taken in UTC.
- Time spans below one second for the marker's configurable time to live: it is a whole number of seconds here.
- Eviction of Redis keys before their expiry.
- TransactionConsumer.Consumer.Process: a kill in the middle of a call is not part of the method; kills at any point are actions of the protocol and of joint runs.
- One consumer's unit of work seen by another: the protocol takes it as one call that lands at an instant, so two units of work never overlap in the database.
