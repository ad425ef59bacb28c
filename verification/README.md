# Verified model of the postmortem repository

A Dafny model of the parts of the repository whose correctness rests on order, retries and
crashes, with the guarantees its documentation and comments promise. `dafny verify
dfyconfig.toml` checks everything.

## What is modelled

* **Consolidation** (`Contracts`, `Grouping`, `WindowStore`, `RunbookStatus`,
  `RunbookRepository`, `Pipeline`, `Delivery`, `CrashReplay`, `FifoQueue`): rows and window
  markers arrive from an at-least-once changefeed, wait in a buffer, are grouped per incident
  when a window closes, distilled, written to a versioned runbook store and marked processed.
  Main results: duplicated, reordered, crashed and restarted deliveries end in the state that
  exactly-once delivery gives; rows leave the buffer a whole complete incident at a time; a group
  reports all rows of its incident and the outcome that occurred last.
* **The SQL runbook store** (`SqlRunbooks`, `SqlReplay`, `RepositoryAgreement`): two tables under
  one atomic update. Main results: counters are provenance counts, rates are the evidence on
  record, no incident counts twice, only the newest version lives, agreement with the in-memory
  store, and the exact condition under which a restart is invisible.
* **Bitemporal facts** (`FactStore`, `FactChains`, `FactConcurrency`): CLOSE, INSERT, LINK in one
  transaction, and clients as step machines. Main results: in every interleaving the rows of a
  key form one supersession chain whose windows tile time, a point-in-time lookup is a lookup in
  the transition log, retries suffice for at most `max_serialization_retries + 1` writers of a
  key, exactly the overtaken calls are rejected, and a caller can tell beforehand whether its
  call is sure to succeed.
* **Act and record** (`OperationalStore`, `OperationalHistory`, `OperationalRules`,
  `RemediationCalls`, `FakeStore`, `FakeAgreement`, `Turn`, `TurnRules`, `TurnAndTables`): the two
  CTE statements as guarded updates of six tables, with aborts and lost acknowledgements, and the
  responder turn. Main results: exactly-once remediation among other clients, whose transactions
  may fall between a call's attempts, the bijection of deploys, action
  episodes and action rows, frozen resolutions, an MTTR that is the time to the first recorded
  success, and a trace that agrees with the store. `OperationalRules` and `TurnRules` say what a
  commit, an outcome and a store call had met, and what they write, from the rows and the request
  alone.
* **The event broker** (`EventBroker`): its lock steps and queue puts in any interleaving. Main
  results: conservation of every event, history as the last appends, publisher order, and no drop
  without a full queue.
* **Deterministic parts** (`Sorting`, `Ranker`, `Ndcg`, `Simulator`, `SimulatorRules`,
  `SimulatorRuns`, `Conductor`): the diversity-aware ranker against a declarative specification and
  what it can never show, the nDCG bound, and the incident simulator with the accounting of the
  evaluation arms.

UUIDs are opaque integers whose order stands for the order of their text, timestamps and decimal
HLCs are integers, SHA-256 keys are the values they hash, JSON metadata is a datatype with the
entries the code reads. The classes hold the source's fields; each method is proved equal to a
specification function, and the theorems are about those functions over whole runs.

## Where the code and its documentation differ

* `consolidation/README.md:19-21` bases durable idempotency on incident provenance. No incident is
  ever counted twice (`SqlRunbooks.StoreAlwaysSound`), but a counterexample that arrives before
  its runbook exists is ignored without a trace (`repository.py:203-211`). If a success of the same
  name follows in the window and the window is replayed, the counterexample counts after all and
  can deprecate the new runbook. `SqlReplay.RestartIsInvisibleIff` gives the exact condition, for
  any number of crashes and restarts, and
  `SqlReplay.RestartDeprecatesFreshRunbook` the failing run. The in-memory store has no such case.
* The comment in `backend/src/postmortem_backend/adapters/recall.py:141-149` expects a retried
  transition to close its rival's row. The instant is fixed before the first attempt and the
  schema demands `valid_to > valid_from` (`db/migrations/0002_core_schema.sql:237`), so a call whose
  instant the rival has reached is refused for good
  (`FactConcurrency.RetryOfTheEarlierInstantIsRejected` is such a run). With at most
  `max_serialization_retries + 1` writers of a key, a call succeeds in every completed run if and
  only if its instant is later than every fact of its key and than every rival's instant
  (`FactConcurrency.SureToSucceedIff`). The same check makes
  the instants of a chain strictly increase, so tiling needs no assumption on the clock.
* The history query orders by `recorded_at` alone (`adapters/recall.py:185-194`). It answers the
  chain in order if and only if those times rise along it (`FactChains.HistoryIsTheLogIff`). They
  do when the `now()` of an attempt is later than that of every row of its key already committed
  when it begins, however attempts overlap (`FactConcurrency.HistoriesStayFaithful`);
  `FactConcurrency.FallingClockOnAFreshKey` is a run of two callers in which a clock that falls
  behind breaks it.
* A turn whose store call raises after it started is traced as rolled back
  (`backend/src/postmortem_backend/service.py:372-384`, and the adapter's message at
  `adapters/cockroach.py:287`). When the acknowledgement of a commit was lost, the tables did change
  (`TurnAndTables.LostAckIsTracedAsRolledBack`). `TurnAndTables.RolledBackIsTrueIff` says exactly
  when that event is true.
* The two runbook stores know a repeat by different marks: the in-memory one by its idempotency
  key, the SQL one by the incident and the name (`repository.py:51-59`, `:170-181`). An incident
  completed again under a new key is counted twice by one and once by the other
  (`RepositoryAgreement.SecondCompletionParts`); `RepositoryAgreement.StreamsAgreeIff` gives the
  exact condition under which they agree on a stream.
* The fake store of the tests does not ask whether the incident is still open, nor whether a cited
  runbook is an active one of the organisation (`adapters/fakes.py:213-226` beside
  `adapters/cockroach.py:22-61`). `FakeAgreement.FakePermitsIff` says that these are the only
  commands on which it is laxer; where the database commits, both write the same rows
  (`FakeAgreement.FakeMirrorsDatabase`).
* nDCG exceeds 1 when a list repeats gold ids (`Ndcg.RepeatsExceedTheIdeal`); `Ndcg.BoundHoldsIff`
  says exactly for which lists the ideal is a bound whatever the rank weights.
* `storage.py:49` reads a stored watermark of 0 as absent: a negative marker delivered again then
  moves the watermark back (`Delivery.NegativeWindowRegresses`). This is the only exception
  (`Delivery.RedeliveryIsInvisibleIff`); real change timestamps are positive, and the delivery
  theorems assume only that no negative marker arrives while 0 is the highest window.
* An outcome observed before its incident was opened cannot be recorded as a success: the schema's
  time order rolls it back (`OperationalHistory.EarlySuccessIsRolledBack`);
  `OperationalHistory.FirstOutcomeIsRecordedIff` gives the exact condition.
* An oracle with an empty action list is resolved by the first accepted action, counted as wrong
  (`SimulatorRuns.EmptyPlanResolvesOnAnything`). That a resolved incident was resolved by a success
  holds in every run if and only if its list is not empty (`SimulatorRuns.ResolvedBySuccessIff`).

## Model

| member | source | states |
|---|---|---|
| `Grouping.GroupIffComplete` | consolidation/postmortem_consolidation/grouping.py:9-21 | an incident is grouped exactly when its latest outcome episode, by occurrence then arrival, carries a known label; the group holds all its rows |
| `Grouping.GroupReports` | consolidation/postmortem_consolidation/grouping.py:9-47 | a group reports exactly the rows of its incident, in order of occurrence, with the ids of an earliest row and the outcome that the last outcome episode names in one of its two words |
| `Grouping.GroupsAreCompleteIncidents` | consolidation/postmortem_consolidation/grouping.py:9-50 | the groups of a window are its complete incidents, each once, in the order of their ids; a group holds every row of its incident in order of occurrence, takes its ids from an earliest row and its outcome from the outcome episode that occurred last |
| `Grouping.KeysCoincideIff` | consolidation/postmortem_consolidation/contracts.py:198-203 | two groups share an idempotency key exactly when they are of one incident and hold the same event ids, counted as often |
| `Grouping.BucketByIncident` | consolidation/postmortem_consolidation/grouping.py:27-29 | the dict loop files every row under its incident, in arrival order |
| `Grouping.CollectGroups` | consolidation/postmortem_consolidation/grouping.py:31-50 | the group loop yields the specified groups in incident order |
| `Grouping.GroupCompletedIncidents` | consolidation/postmortem_consolidation/grouping.py:24-50 | the whole function computes the specified groups whatever the dict's order |
| `WindowStore.InMemoryWindowStore.Put` | consolidation/postmortem_consolidation/storage.py:29-31 | a row is buffered unless its dedup id is done; nothing else changes |
| `WindowStore.InMemoryWindowStore.ReadThrough` | consolidation/postmortem_consolidation/storage.py:33-41 | all waiting rows at or before the watermark, ordered by update time and id |
| `WindowStore.InMemoryWindowStore.MarkProcessed` | consolidation/postmortem_consolidation/storage.py:43-49 | exactly the given rows leave the buffer and become done; the watermark advances |
| `WindowStore.InMemoryWindowStore.Archive` | consolidation/postmortem_consolidation/storage.py:51-52 | the distillation is stored under its key |
| `WindowStore.WatermarkMonotone` | consolidation/postmortem_consolidation/storage.py:49 | the stored watermark falls exactly when it is 0 and the window is negative |
| `RunbookStatus.IncrementalIsClosedForm` | consolidation/postmortem_consolidation/repository.py:65-124 | counters and status updated step by step equal their closed form over the outcome history |
| `RunbookStatus.DeprecatedIsAbsorbing` | consolidation/postmortem_consolidation/repository.py:74-75 | deprecation by evidence is final |
| `RunbookRepository.InMemoryRunbookRepository.Apply` | consolidation/postmortem_consolidation/repository.py:48-127 | one application equals its specification, including the refused embedding and the replay of a known key |
| `RunbookRepository.RepositoryIsItsLog` | consolidation/postmortem_consolidation/repository.py:48-127 | after any calls, refused ones among them, the versions of a name are the segments of its log of first-time candidates, with closed-form counters and status, and the keys on record are those of the calls not refused |
| `RunbookRepository.FirstCallAnswers` | consolidation/postmortem_consolidation/repository.py:61-127 | the first call of a key creates, reinforces, weakens, ignores or refuses as the outcome, the last version's steps and the embedding say, moves that one version, and answers its numbers |
| `RunbookRepository.FirstCallLists` | consolidation/postmortem_consolidation/repository.py:61-99 | every first call lists its name, a refused one too, and a new version's id counts the names and the versions of its own there then are |
| `RunbookRepository.RepeatedKeyAnswersFirst` | consolidation/postmortem_consolidation/repository.py:51-59 | however many calls come between, a repeated key changes nothing and answers a noop replay with the numbers of its first answer |
| `Pipeline.ConsolidationProcessor.ConsolidateGroup` | consolidation/postmortem_consolidation/pipeline.py:46-58 | distil, embed, apply, archive for one group |
| `Pipeline.ConsolidationProcessor.ConsolidateGroups` | consolidation/postmortem_consolidation/pipeline.py:43-58 | the loop over the groups, its mutations and its completed ids |
| `Pipeline.ConsolidationProcessor.Process` | consolidation/postmortem_consolidation/pipeline.py:34-67 | one message: buffer a row, or close a window and report |
| `Pipeline.WindowTells` | consolidation/postmortem_consolidation/pipeline.py:41-67 | closing a window calls the repository once per group, in order, with the group's own candidate and key, and archives the first distillation made under each key and nothing else |
| `Pipeline.MutationsAreAnswers` | consolidation/postmortem_consolidation/pipeline.py:43-58 | the i-th mutation a window reports is the repository's answer to its i-th call |
| `Delivery.ClosingMovesWholeIncidents` | consolidation/postmortem_consolidation/pipeline.py:41-67 | closing moves exactly the waiting rows, at or before the watermark, of complete incidents from pending to processed |
| `Delivery.QuietWindow` | consolidation/postmortem_consolidation/pipeline.py:41-67 | a window without a complete incident changes nothing but the watermark |
| `Delivery.ClosingKeepsQuiet` | consolidation/postmortem_consolidation/grouping.py:9-50 | closing one window never completes what an earlier closed window left behind |
| `Delivery.Reachable` | consolidation/postmortem_consolidation/storage.py:22-52 | in every reachable state each delivered row is in exactly one of pending and processed, closed windows hold no complete incident, and the watermark is the highest window |
| `Delivery.RedeliveryIsInvisibleIff` | consolidation/README.md:19-21 | delivering any earlier message again changes nothing, except exactly when a negative marker meets a stored watermark of 0 |
| `Delivery.AtLeastOnceIsExactlyOnce` | consolidation/README.md:19-21 | any duplication of rows and markers ends in the state of exactly-once delivery |
| `Delivery.RunIsReplay` | consolidation/postmortem_consolidation/pipeline.py:34-67 | only the set of rows between two windows matters |
| `Delivery.DeliveryOrderIsIrrelevant` | consolidation/README.md:19-21 | deliveries that differ in duplicates and in the order of rows between windows end in the same state |
| `Delivery.NegativeWindowRegresses` | consolidation/postmortem_consolidation/storage.py:49 | a stored watermark of 0 counts as absent, so on a well-formed, timely trace a negative marker delivered again moves it back |
| `CrashReplay.RedoCatchesUp` | consolidation/postmortem_consolidation/repository.py:51-59 | redoing the groups after a crash rewrites what was written without effect and completes the rest |
| `CrashReplay.RestartCompletes` | consolidation/postmortem_consolidation/pipeline.py:41-67 | processing a crashed window again ends in the repository and store state of one uncrashed run |
| `CrashReplay.LogTracksTrace` | consolidation/postmortem_consolidation/pipeline.py:34-67 | at every point of a delivery log with crashes the state is the crash-free one, or part of the way into the owed window |
| `CrashReplay.CrashesAndRedeliveriesAreInvisible` | consolidation/README.md:19-21 | crashes, restarts and duplicates together end as exactly-once, crash-free delivery |
| `FifoQueue.SendInChunks` | consolidation/postmortem_consolidation/handlers.py:101-120 | chunks of ten, the last of at most ten, concatenate to the input, or to the prefix before the rejected chunk |
| `FifoQueue.ProcessOrRaise` | consolidation/postmortem_consolidation/handlers.py:195-215 | one record, and what it leaves written when it raises before, inside or after its window |
| `FifoQueue.ConsolidateBatch` | consolidation/postmortem_consolidation/handlers.py:195-228 | records are processed in order up to the first that raises, which leaves what it had written; that one and all later ones are reported |
| `FifoQueue.InvocationIsEvents` | consolidation/postmortem_consolidation/handlers.py:195-228 | every batch, with the queue resuming from the reported failures or from the start when its answer is lost, is a sequence of single deliveries, crashes and rewinds |
| `FifoQueue.ProcessedIsAPrefix` | consolidation/postmortem_consolidation/handlers.py:195-228 | after any batches, with any failures, kills and lost answers, the messages processed at least once are an in-order prefix of those sent and the queue holds the rest |
| `FifoQueue.DrainedQueueIsExactlyOnce` | consolidation/postmortem_consolidation/handlers.py:195-228 | once such batches have emptied the queue, the state is that of one clean pass over the distinct messages |
| `SqlRunbooks.CockroachRunbookRepository.FindLatest` | consolidation/postmortem_consolidation/repository.py:182-194 | the highest version of the name, or none |
| `SqlRunbooks.CockroachRunbookRepository.Credit` | consolidation/postmortem_consolidation/repository.py:212-332 | one version takes an outcome and its provenance row is written |
| `SqlRunbooks.CockroachRunbookRepository.Create` | consolidation/postmortem_consolidation/repository.py:237-332 | a new version is inserted and the prior one deprecated |
| `SqlRunbooks.CockroachRunbookRepository.Apply` | consolidation/postmortem_consolidation/repository.py:150-341 | one transaction equals its specification, keeps the tables sound, answers about a stored version of the name, and names the operation that happened to that row |
| `SqlRunbooks.ApplyKeepsSound` | consolidation/postmortem_consolidation/repository.py:150-341 | an application keeps counts equal to provenance, incidents counted once, and only the newest version live |
| `SqlRunbooks.StoreAlwaysSound` | consolidation/postmortem_consolidation/repository.py:150-341 | the same in every reachable state, with remediation usage in between |
| `SqlRunbooks.ApplyMovesOneRow` | consolidation/postmortem_consolidation/repository.py:212-332 | an application changes no row but the newest of the candidate's name: it takes one count, one use and the rate successes over usage, or is retired for a fresh version of the next number |
| `SqlRunbooks.RatesAreEvidence` | consolidation/postmortem_consolidation/repository.py:219-221 | while no remediation uses a runbook, every stored rate is the share of successes among the outcomes on record |
| `SqlRunbooks.UsageIsEvidenceAndUses` | consolidation/postmortem_consolidation/repository.py:212-332 | in every reachable state a version's usage is the outcomes it took and the remediations that used it |
| `SqlRunbooks.ActivePassesCountGates` | backend/src/postmortem_backend/recall.py:192-202 | an active runbook always passes the ranker's default usage, provenance and counterexample gates |
| `SqlReplay.ReplayIsIdleIff` | consolidation/postmortem_consolidation/repository.py:170-211 | an application changes nothing exactly when the incident is on record, there is nothing to weaken, or the embedding is refused |
| `SqlReplay.FirstPass` | consolidation/postmortem_consolidation/repository.py:150-341 | which names and incidents are on record after the first n candidates of a window |
| `SqlReplay.OvertakenIsCountedLate` | consolidation/postmortem_consolidation/repository.py:203-211 | an overtaken counterexample is unrecorded in an uncrashed run and recorded by the run that follows any crashes that got past its success |
| `SqlReplay.RestartIsInvisibleIff` | consolidation/README.md:19-21 | any number of crashes and restarts of a window, or replays of it, are invisible if and only if no candidate up to the furthest crash is an overtaken counterexample |
| `SqlReplay.RestartDeprecatesFreshRunbook` | consolidation/postmortem_consolidation/repository.py:203-211 | the failing run: a draft runbook is deprecated by the restart |
| `RepositoryAgreement.ApplyKeepsAgreement` | consolidation/postmortem_consolidation/repository.py:38-341 | one candidate applied to both stores keeps versions, steps, counters and the live status equal |
| `RepositoryAgreement.StepAgreesIff` | consolidation/postmortem_consolidation/repository.py:48-211 | stores in agreement stay so over a call exactly when both know it as a repeat, or neither does, or both ignore it |
| `RepositoryAgreement.StreamsAgreeIff` | consolidation/postmortem_consolidation/repository.py:38-341 | on any stream, with repeated calls and incidents, they agree after every call if and only if each call repeats a key exactly when its incident was listed under its name, or is a counterexample before any success |
| `RepositoryAgreement.StreamsAgree` | consolidation/postmortem_consolidation/repository.py:38-341 | so they agree on any stream of distinct incidents |
| `RepositoryAgreement.SecondCompletionParts` | consolidation/postmortem_consolidation/repository.py:170-181 | an incident counted once and completed again under a new key parts the stores |
| `FactStore.SemanticFacts.Close` | backend/src/postmortem_backend/adapters/recall.py:150-158 | the open row of the key is closed at the instant, or the window check refuses |
| `FactStore.SemanticFacts.Insert` | backend/src/postmortem_backend/adapters/recall.py:160-171 | the new row opens unless the unique index refuses it |
| `FactStore.SemanticFacts.Link` | backend/src/postmortem_backend/adapters/recall.py:173-179 | the closed row points at its successor |
| `FactStore.SemanticFacts.TransitionFactOnce` | backend/src/postmortem_backend/adapters/recall.py:340-373 | the three statements together, or nothing; accepted exactly when the instant is later and the id new, and otherwise which of the two failed |
| `FactStore.SemanticFacts.TransitionFact` | backend/src/postmortem_backend/adapters/recall.py:279-338 | the retry loop commits once, on the first attempt that is not aborted and with that attempt's now(), or leaves the table as it was; it gives up only after the last attempt or on a refused instant |
| `FactChains.AcceptedIff` | db/migrations/0002_core_schema.sql:237 | a transition is accepted exactly when it is later than the fact it replaces |
| `FactChains.TransitionExtends` | backend/src/postmortem_backend/adapters/recall.py:110-179 | an accepted transition adds one link to its own chain and touches no other key |
| `FactChains.LookupReadsTheLog` | backend/src/postmortem_backend/adapters/recall.py:63-65 | the rows valid at an instant are exactly the last transition at or before it, or none; the recorded_at gate can only drop it |
| `FactChains.PastIsImmutable` | backend/src/postmortem_backend/adapters/recall.py:110-179 | a transition never changes the answer for an earlier instant |
| `FactChains.ClosedIffSuperseded` | backend/src/postmortem_backend/adapters/recall.py:110-179 | valid_to is null exactly when superseded_by is, and otherwise is the successor's valid_from |
| `FactChains.HistoryIsTheLogIff` | backend/src/postmortem_backend/adapters/recall.py:185-194 | the history query returns the whole chain in order, whatever order the rows were scanned in, if and only if recorded_at rises along the chain |
| `FactConcurrency.EveryInterleavingIsSafe` | backend/src/postmortem_backend/adapters/recall.py:321-373 | in every interleaving with aborts and retries the rows form chains, one new row and one link per success and none otherwise |
| `FactConcurrency.EveryClientStops` | backend/src/postmortem_backend/adapters/recall.py:321-338 | no client makes more than max_serialization_retries + 1 attempts |
| `FactConcurrency.MineStaysPaid` | backend/src/postmortem_backend/adapters/recall.py:321-338 | every attempt a client loses is paid for by another commit on its key |
| `FactConcurrency.RetriesSuffice` | backend/src/postmortem_backend/adapters/recall.py:321-338 | with at most max_serialization_retries + 1 writers of a key, and aborts only on conflict, no client runs out of attempts |
| `FactConcurrency.HistoriesStayFaithful` | db/migrations/0002_core_schema.sql:232 | with each attempt's now() later than the committed rows of its key, recorded_at rises along every chain in every interleaving, so every history query is in order |
| `FactConcurrency.FallingClockMisleads` | backend/src/postmortem_backend/adapters/recall.py:185-194 | any two callers of a key can commit one after the other by a clock that does not rise, and then the history query is not in order for some scan |
| `FactConcurrency.FallingClockOnAFreshKey` | backend/src/postmortem_backend/adapters/recall.py:185-194 | the failing run: two callers of a fresh key recorded at 6 and then 5 |
| `FactConcurrency.OvertakenIffRefused` | db/migrations/0002_core_schema.sql:237 | a call is refused exactly when its key already has a fact starting at its instant or later |
| `FactConcurrency.RejectedWasOvertaken` | backend/src/postmortem_backend/adapters/recall.py:321-338 | in every run, a rejected client's instant had been overtaken |
| `FactConcurrency.OvertakenNeverSucceeds` | backend/src/postmortem_backend/adapters/recall.py:318-338 | once overtaken, a call succeeds in no continuation |
| `FactConcurrency.SettledMeansDecided` | backend/src/postmortem_backend/adapters/recall.py:321-338 | when all clients have stopped each succeeded or was overtaken, and the latest call of a key always succeeded |
| `FactConcurrency.SpoiledRun` | backend/src/postmortem_backend/adapters/recall.py:141-149 | a call overtaken at the start, or with a rival at its instant or later, is rejected in some completed run that only conflicts abort |
| `FactConcurrency.SureToSucceedIff` | backend/src/postmortem_backend/adapters/recall.py:141-149 | with few enough writers a call succeeds in every completed run if and only if it is later than every fact of its key and every rival |
| `FactConcurrency.RetryOfTheEarlierInstantIsRejected` | backend/src/postmortem_backend/adapters/recall.py:141-149 | the failing run: the retry of the earlier of two instants is rejected under any retry limit |
| `OperationalStore.CockroachStore.ExecuteOnce` | backend/src/postmortem_backend/adapters/cockroach.py:22-141 | one transaction: gates, unique key, six tables together or none, under each fault |
| `OperationalStore.CockroachStore.Replay` | backend/src/postmortem_backend/adapters/cockroach.py:246-265 | the ids stored under the key, or nothing |
| `OperationalStore.CockroachStore.RemediateAndRecord` | backend/src/postmortem_backend/adapters/cockroach.py:200-244 | validation, retry on 40001 and replay on 23505 equal the call's specification |
| `OperationalStore.CockroachStore.RecordOnce` | backend/src/postmortem_backend/adapters/outcome.py:189-235 | one outcome transaction: replay, conflict, first record, or rollback |
| `OperationalStore.CockroachStore.RecordOutcome` | backend/src/postmortem_backend/adapters/outcome.py:160-187 | the retry loop around it |
| `OperationalRules.KeysCoincideIff` | backend/src/postmortem_backend/domain.py:150-154 | two commands share a key exactly when they give the same text, or give none and agree on incident, action, service, version and cited memory |
| `OperationalRules.RemediationWritesIff` | backend/src/postmortem_backend/adapters/cockroach.py:22-141 | a remediation writes exactly when the cited memory, the open incident, its service and any cited active runbook are the organisation's and its key is free; otherwise no table moves and the answer says why |
| `OperationalRules.RemediationWrites` | backend/src/postmortem_backend/adapters/cockroach.py:62-141 | the rows a commit leaves: service recovering under the new deploy, incident mitigating, deploy, episode, action, one more use of the cited runbook, and nothing else |
| `OperationalRules.OutcomeTells` | backend/src/postmortem_backend/adapters/outcome.py:15-143 | an outcome writes only for the organisation's own action on that incident and service; a recorded success leaves the incident resolved, and the first one sets its time and its MTTR to observed minus opened, at least 0 |
| `OperationalRules.RemediationRetries` | backend/src/postmortem_backend/adapters/cockroach.py:226-244 | a call ends as its first attempt that was not aborted, or as the last of all |
| `OperationalRules.OutcomeRetries` | backend/src/postmortem_backend/adapters/outcome.py:160-187 | the same for an outcome call |
| `OperationalRules.ValidationPassesIff` | backend/src/postmortem_backend/adapters/cockroach.py:298-310 | which commands reach the database, and which refusal the others get |
| `OperationalHistory.ActKeepsSound` | backend/src/postmortem_backend/adapters/cockroach.py:22-141 | a remediation keeps all invariants of the tables |
| `OperationalHistory.JudgeKeepsSound` | backend/src/postmortem_backend/adapters/outcome.py:15-143 | an outcome keeps all invariants of the tables |
| `OperationalHistory.ActCountsUse` | backend/src/postmortem_backend/adapters/cockroach.py:123-131 | a runbook's usage count is the number of action episodes that cite it |
| `OperationalHistory.EveryHistoryIsSound` | backend/src/postmortem_backend/adapters/cockroach.py:22-141 | after any transactions: one action per key, deploys, action episodes and action rows in bijection, one outcome episode per action equal to its stored outcome, resolved only after a success with times fixed and non-negative MTTR, usage counted |
| `OperationalHistory.NothingIsUndone` | backend/src/postmortem_backend/adapters/outcome.py:49-80 | no later transaction rewrites an episode, deploy or action row, a recorded outcome, a resolution, its time or its MTTR |
| `OperationalRules.EveryHistoryFollows` | backend/src/postmortem_backend/adapters/cockroach.py:22-141 | after any transactions every action episode cites an active runbook of its organisation or none, and every service that was touched recovers under the version of a deploy of its own |
| `OperationalRules.MttrIsTimeToFirstSuccess` | backend/src/postmortem_backend/adapters/outcome.py:74-84 | in every history an incident is resolved at the instant of the first success recorded for it, and its MTTR is the time from its opening to that instant |
| `OperationalHistory.RepeatedCallReplays` | backend/src/postmortem_backend/adapters/cockroach.py:226-265 | a call whose key is stored changes nothing and answers the stored ids or a refusal |
| `RemediationCalls.UndisturbedCall` | backend/src/postmortem_backend/adapters/cockroach.py:226-265 | without interference the call among other clients is what the retry loop computes |
| `RemediationCalls.CallCommitsAtMostOnce` | backend/src/postmortem_backend/adapters/cockroach.py:226-265 | whatever befalls its attempts and whatever others commit between them, a call adds to the others' work one remediation or nothing, its answer says which unless it is an error, and the ids it names are those stored under its key |
| `RemediationCalls.ExactlyOnce` | backend/src/postmortem_backend/adapters/cockroach.py:143-160 | once a key is stored, a repeated call leaves no trace, whatever others commit before and between its attempts, and its only success is the original's ids |
| `RemediationCalls.OneCommitPerKey` | backend/src/postmortem_backend/adapters/cockroach.py:226-244 | over any history of any clients a key's remediation commits once if the key is stored at the end and never otherwise |
| `OperationalHistory.RepeatedOutcomeReplays` | backend/src/postmortem_backend/adapters/outcome.py:33-46 | the same outcome answers the original episode, a different one is a conflict, neither changes anything |
| `OperationalHistory.FirstOutcomeIsRecordedIff` | db/migrations/0002_core_schema.sql:126-127 | a first outcome is recorded exactly when it keeps the incident's times in order |
| `OperationalHistory.EarlySuccessIsRolledBack` | db/migrations/0002_core_schema.sql:126-127 | the failing input: a committed action of an incident opened after its success was observed |
| `FakeStore.FakeAtomicRemediationStore.Validate` | backend/src/postmortem_backend/adapters/fakes.py:304-312 | which commands are refused before the transaction |
| `FakeStore.FakeAtomicRemediationStore.WriteStaged` | backend/src/postmortem_backend/adapters/fakes.py:207-282 | the staged writes complete exactly when target, memory and failure point allow |
| `FakeStore.FakeAtomicRemediationStore.RemediateAndRecord` | backend/src/postmortem_backend/adapters/fakes.py:182-302 | all six tables or none at every failure point, with the commit and rollback counts |
| `FakeAgreement.RefusalsAgree` | backend/src/postmortem_backend/adapters/fakes.py:304-312 | the fake and the adapter refuse the same commands up front, but for a blank version |
| `FakeAgreement.FakePermitsIff` | backend/src/postmortem_backend/adapters/fakes.py:213-226 | seeded alike, the fake accepts what the database permits and nothing else but commands on an incident no longer open or under a runbook that is not an active one of the organisation |
| `FakeAgreement.FakeMirrorsDatabase` | backend/src/postmortem_backend/adapters/fakes.py:206-302 | with a free key and no fault both commit, and the fake ends with what it would see of the database's rows |
| `FakeAgreement.UseIsCounted` | backend/src/postmortem_backend/adapters/fakes.py:280-283 | a cited runbook counts one more use, from nothing if no test seeded it, and no other count moves |
| `Turn.Authorize` | backend/src/postmortem_backend/guardrails/allowlist.py:202-254 | a command is authorized exactly when it is not high blast radius or a named human approved it |
| `Turn.FlagOnlyAddsCaution` | backend/src/postmortem_backend/guardrails/allowlist.py:173-199 | the reasoner's flag can only add caution; a critical service stays gated without it |
| `Turn.WordsEndOnce` | backend/src/postmortem_backend/service.py:84-386 | a trace has one terminal event, its last, and repeats nothing |
| `Turn.WordsAreEndings` | backend/src/postmortem_backend/service.py:84-386 | the grammar of traces is exactly eight words |
| `Turn.TraceTellsTheTruth` | backend/src/postmortem_backend/service.py:84-386 | started iff every gate passed, committed iff the store accepted, rolled back iff it refused; no unattended high-blast-radius action |
| `Turn.ResponderService.Understand` | backend/src/postmortem_backend/service.py:113-244 | recall and reasoning publish their events up to the decision or the first failure |
| `Turn.ResponderService.Act` | backend/src/postmortem_backend/service.py:247-346 | the act stage: grounding, proposal, approval, authorization, store |
| `Turn.ResponderService.Handle` | backend/src/postmortem_backend/service.py:84-386 | for every combination of port failures: the trace, the answer, the first failure as its error, the store called at most once and only through the gates, its tables changed only by a commit |
| `TurnRules.GatesAre` | backend/src/postmortem_backend/guardrails/allowlist.py:173-254 | the provenance gate passes exactly a cited memory that this turn surfaced, the authorization gate exactly an action that needs no human or has one by name; its record says which, and names that human stripped |
| `TurnRules.StoreIsCalledIff` | backend/src/postmortem_backend/service.py:247-346 | the store is called exactly for a command the reasoner ordered that cites a memory surfaced by this turn, with the action embedded, and approved by a named human wherever the action kind, a critical tag or the reasoner asks for one; the approval passed on is the request's |
| `TurnRules.CriticalIsLeftAlone` | backend/src/postmortem_backend/guardrails/allowlist.py:117-254 | without an approval by name no store is called for a service tagged checkout, payments, payment, billing or invoicing |
| `TurnRules.EventsTell` | backend/src/postmortem_backend/service.py:84-386 | each event of the trace says what the ports had done by then |
| `TurnRules.CompletionTells` | backend/src/postmortem_backend/service.py:84-386 | a response is completed exactly by a commit, a request for approval or a decision without a command |
| `TurnRules.AnswerTells` | backend/src/postmortem_backend/service.py:348-373 | a turn answers ids exactly when it committed, and then the store's |
| `TurnRules.FailuresTell` | backend/src/postmortem_backend/service.py:113-318 | the error of a turn that called no store names the first thing that went wrong: recall, screen, reasoning, grounding, authorization or embedding |
| `TurnAndTables.RolledBackIsTrueIff` | backend/src/postmortem_backend/service.py:372-384 | over the database, with aborts, lost acknowledgements and other clients: a turn that says committed names the stored ids, and one that says rolled back left no trace exactly when it was refused up front or lost no acknowledgement of a commit |
| `TurnAndTables.LostAckIsTracedAsRolledBack` | backend/src/postmortem_backend/service.py:372-384 | the failing turn: the acknowledgement of its commit is lost |
| `EventBroker.HistoryIsTheLastAppends` | backend/src/postmortem_backend/events.py:43-68 | history is always the last history_limit appends; a stream replays the history of its registration |
| `EventBroker.EveryEventIsAccountedFor` | backend/src/postmortem_backend/events.py:43-83 | each event appended while a stream is registered is in exactly one of delivered, queued, dropped and pending, once |
| `EventBroker.ReplayAndLiveAreDisjoint` | backend/src/postmortem_backend/events.py:65-72 | no event is both replayed from history and sent live |
| `EventBroker.PublisherOrderIsKept` | backend/src/postmortem_backend/events.py:43-60 | events of one publisher reach every stream in publication order |
| `EventBroker.OnePublisherIsGapFree` | backend/src/postmortem_backend/events.py:43-83 | with one publisher and no drop a stream holds exactly the events of its registration, gap-free after its replay |
| `EventBroker.PutDropsIff` | backend/src/postmortem_backend/events.py:51-60 | a put drops its event exactly when there is a limit and the queue already holds that many; otherwise the event goes last into the queue |
| `EventBroker.DropsNeedAFullQueue` | backend/src/postmortem_backend/events.py:51-68 | in every reachable state a queue keeps its limit, and a stream without a limit, or to which no more was appended than its queue holds, has lost nothing |
| `EventBroker.Broker.Publish` | backend/src/postmortem_backend/events.py:43-60 | an undisturbed publish offers the event to every open stream of its incident and to no other; a stream with room ends with the new event last in its queue |
| `EventBroker.Broker.Subscribe` | backend/src/postmortem_backend/events.py:68-72 | registration and the history copy happen in one step |
| `EventBroker.Broker.Poll` | backend/src/postmortem_backend/events.py:73-78 | the oldest queued event, or a heartbeat that changes nothing |
| `Ranker.FirstsMembers` | backend/src/postmortem_backend/recall.py:341-366 | the first item of each key in a ranked list is that key's best |
| `Ranker.Diverse` | backend/src/postmortem_backend/recall.py:341-366 | the greedy loop computes the best of every key, best first, cut to the limit (a limit below 1 acts as 1) |
| `Ranker.Rank` | backend/src/postmortem_backend/recall.py:47-98 | rank is that selection on the eligible candidates of each kind, and nothing on a cold start |
| `Ranker.RankForgetsOrder` | backend/src/postmortem_backend/recall.py:47-98 | the order of the candidates, and repeats among them, never show |
| `Ranker.SelectionIsOfBest` | backend/src/postmortem_backend/recall.py:341-366 | selected memories are the best of their keys, in rank order |
| `Ranker.LeftOutIsBeaten` | backend/src/postmortem_backend/recall.py:341-366 | what is left out loses to a better memory of its key, or to every selected one at the limit |
| `Ranker.RecalledIsEligible` | backend/src/postmortem_backend/recall.py:144-215 | everything recalled passed the gates of its kind |
| `Ranker.RecallNeverLeaks` | backend/src/postmortem_backend/recall.py:47-215 | nothing recalled is of another organisation, agent or service, was unknown, not begun or ended at the asked instant, or is too weak for its kind; each is a candidate with the score of its kind |
| `Ranker.RecallIsDiverse` | backend/src/postmortem_backend/recall.py:47-366 | no two episodes recalled are of one case, no two facts share subject and predicate, no two runbooks a name; each kind falls in rank and keeps its limit |
| `Ranker.DefaultsAskForProof` | backend/src/postmortem_backend/recall.py:192-202 | by default a recalled runbook was used and proved at least once and refuted at most as often as proved |
| `Ndcg.GainBound` | evaluation/postmortem_eval/runner.py:312-316 | with h hits the gain is at most that of the first h ranks, reached only there |
| `Ndcg.DcgIsBounded` | evaluation/postmortem_eval/runner.py:312-320 | for distinct ids the DCG never exceeds the ideal, with equality iff the first min(gold, 10) ranks all hit |
| `Ndcg.NdcgIsARatio` | evaluation/postmortem_eval/runner.py:321 | nDCG is the DCG over the ideal, between 0 and 1, 1 iff the list is perfect, and 0 without gold ids |
| `Ndcg.OnlyTenCount` | evaluation/postmortem_eval/runner.py:309-320 | what stands after the tenth rank changes nothing, and the ideal never has more than ten hits |
| `Ndcg.RepeatsExceedTheIdeal` | evaluation/postmortem_eval/runner.py:312-320 | without distinct ids the bound fails |
| `Ndcg.BoundHoldsIff` | evaluation/postmortem_eval/runner.py:312-320 | for any list the ideal bounds the DCG under all decreasing positive weights if and only if at most as many of its first ten ranks hold gold ids as there are gold ids |
| `Ndcg.MeanNdcg` | evaluation/postmortem_eval/runner.py:306-325 | the reported mean times the number of queries is the sum of their scores; it is in the unit interval, and 1 iff every query is perfect |
| `SimulatorRuns.PlansAreFollowed` | simulator/postmortem_sim/conductor.py:157-225 | after any run the successful actions of an incident carry out a prefix of its required list, in kind, target and every parameter; it is resolved iff the prefix is complete |
| `SimulatorRules.SuccessesAnswerThePlan` | simulator/postmortem_sim/conductor.py:157-225 | after any run the k-th success of an incident has the kind, the resolved target and, for every key, the value or the previous stable version that the k-th entry of its plan asks for |
| `SimulatorRules.LoggedAsItIs` | simulator/postmortem_sim/conductor.py:176-213 | the outcome, time, orders and step that an accepted action leaves |
| `SimulatorRules.AcceptedExactly` | simulator/postmortem_sim/conductor.py:168-174 | an action is accepted exactly for a known unresolved incident, a known target, one of the eight kinds and the parameters it needs |
| `SimulatorRules.ActionChanges` | simulator/postmortem_sim/conductor.py:536-618 | what each kind of action changes in the platform, and nothing else |
| `SimulatorRules.ResolutionSettles` | simulator/postmortem_sim/conductor.py:644-659 | a resolution sets the times, heals the service, and clears the incident's ringing alerts with their objectives; any other action touches none of these |
| `SimulatorRules.InjectedExactly` | simulator/postmortem_sim/conductor.py:284-490 | a scenario is injected exactly when what it names exists, its ids are new, and a pool exhaustion that is no near miss finds an open pool size |
| `SimulatorRules.RefusedFaultTells` | simulator/postmortem_sim/conductor.py:306-322 | the pool exhaustion that is refused leaves the clock moved and its service degraded, and nothing else |
| `SimulatorRules.InjectionOpens` | simulator/postmortem_sim/conductor.py:492-534 | the incident, alert, breached objective and failed orders a scenario opens |
| `SimulatorRules.FaultBreaks` | simulator/postmortem_sim/conductor.py:284-490 | what each fault family breaks, and nothing else |
| `SimulatorRules.AlertsRingUntilResolved` | simulator/postmortem_sim/conductor.py:492-659 | in every run the alert of an incident rings from its injection until its resolution and is cleared at that instant |
| `SimulatorRuns.ResolvedBySuccessIff` | simulator/postmortem_sim/conductor.py:215-217 | in every run the action that resolved an incident had succeeded, if and only if its required list is not empty |
| `SimulatorRuns.EmptyPlanResolvesOnAnything` | simulator/postmortem_sim/conductor.py:215-217 | an empty required list is resolved by any accepted action |
| `SimulatorRuns.SetConfigKeepsTiling` | simulator/postmortem_sim/conductor.py:599-618 | a configuration change extends the tiling of its key and leaves the others alone |
| `SimulatorRuns.HistoriesStayTiled` | simulator/postmortem_sim/conductor.py:87-123 | in every run each configuration history tiles time with one open revision |
| `SimulatorRuns.ReplayAccounts` | simulator/postmortem_sim/conductor.py:157-225 | time, steps, orders and actions of an action loop follow from its outcomes |
| `SimulatorRuns.MttrFormula` | evaluation/postmortem_eval/runner.py:174-260 | MTTR is thinking time plus action time per required step plus penalty per wrong action; failed orders are the scenario's plus two per wrong action |
| `SimulatorRuns.RefusedActionsDoNotMatter` | evaluation/postmortem_eval/real_agent.py:467-489 | deleting refused actions from a plan changes neither the final world nor the outcomes |
| `Conductor.Conductor.InjectNext` | simulator/postmortem_sim/conductor.py:87-123 | the next scenario's fault, incident, alert and failed orders; an unfit scenario is passed over with the index and the clock already moved |
| `Conductor.Conductor.Open` | simulator/postmortem_sim/conductor.py:492-534 | the incident, its alert, its breached objective and its failed orders appear together |
| `Conductor.Conductor.Observe` | simulator/postmortem_sim/conductor.py:125-155 | the responder's view needs an active alert |
| `Conductor.Conductor.SetConfig` | simulator/postmortem_sim/conductor.py:599-618 | the search from the end closes the current revision and opens the new one |
| `Conductor.Conductor.RollBack` | simulator/postmortem_sim/conductor.py:540-561 | the newest deployment of the running version is flagged and a rollback appended |
| `Conductor.Conductor.MutateAction` | simulator/postmortem_sim/conductor.py:536-597 | an action is refused exactly when its parameters fail, and then changes nothing |
| `Conductor.Conductor.AddFailedOrders` | simulator/postmortem_sim/conductor.py:661-677 | count failed orders of the incident, a second apart |
| `Conductor.Conductor.Resolve` | simulator/postmortem_sim/conductor.py:644-659 | status, time, MTTR, health, alerts and SLOs settle together |
| `Conductor.Conductor.ApplyAction` | simulator/postmortem_sim/conductor.py:157-225 | an accepted action equals its specification; a refused one leaves the world unchanged |
| `Conductor.Conductor.ReplayPlan` | evaluation/postmortem_eval/real_agent.py:467-489 | the skipping loop equals the replay of the plan, with its invalid count |
| `Conductor.Conductor.ApplyPlan` | evaluation/postmortem_eval/runner.py:193-207 | the aborting loop equals it when nothing is refused |
| `Conductor.Conductor.RunIncident` | evaluation/postmortem_eval/runner.py:181-258 | one incident reports the row read off the run, its thinking, MTTR, actions, wrong actions and failed orders, and the row adds up; or raises exactly when it does not finish |
| `Conductor.Conductor.RunArm` | evaluation/postmortem_eval/runner.py:174-260 | an arm reports every scenario in order, each the row of its run from the world the one before left, each adding up, or raises exactly when some scenario does not finish |

## Left out

- `S3WindowStore`: its `put` has no processed check; the delivery theorems are for the in-memory store.
- A crash inside `mark_processed`, and a record that fails for good: a record that raises has written nothing, part of its window, or all of it.
- Distiller, embedder, reasoner and recall content: ports are functions or oracles; embeddings are represented by their length in the stores.
- Generated `runbook_id` strings of the in-memory store can coincide across names (`repository.py:92`); a runbook is identified by name and version.
- `_LocalRunbook` objects are values in a sequence: no alias of them leaves the repository.
- Row-level TTL of episodes, `memory_ref` set to null by it, and `closed` incidents set by other code paths.
- An explicit idempotency key that spells out a derived one: the two kinds of key are kept apart.
- Spurious 40001 errors are allowed in every safety theorem; only the retry bound assumes that an abort has a conflict.
- The fake store's `auto_seed` path and its outcome recording.
- `enforce_tool_allowlist`: every decision kind maps to an allowed tool, so the check cannot fail.
- Event publishing that fails, SSE formatting, authentication, changefeed parsing, MCP, CDK and web code.
- Floating-point rounding: scores, ratios and DCG sums are exact; score formulas and `log2` are abstract.
- Conductor.Conductor.InjectNext: does not model what a malformed scenario, one that names a service or dependency the world lacks or repeats an id, leaves half changed in the platform before it raises.
- The half-acted world that an exception leaves in the middle of an arm: the arm ends there, and that it does is stated.
- Simulator: measured SLO values, order amounts and record ids.
- A consolidator invocation without `Records` (`handlers.py:180-193`), which closes a window at the clock's time outside the queue.
- What the queue service itself does between invocations is the order of one FIFO message group, with any batch sizes and any loss of answers; its retention and dead-letter limits are not modelled.
- The real-agent arm's outer loop and its summaries: they repeat the harness arm with the skipping loop.
- `RunbookStatus.DeprecatedIsAbsorbing` is about deprecation by evidence; the SQL store also retires a replaced version, which `SqlRunbooks.StoreAlwaysSound` covers.
