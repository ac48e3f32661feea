# A verified model of the incident decision platform

The platform is a multi-tenant API (`apps/api`) and web client (`apps/web`) for incidents and the decisions
taken during them. This project models its stateful and arithmetic parts in Dafny and proves properties of
them for all inputs, runs and interleavings. `dafny verify dfyconfig.toml` checks everything.

| files | what they model |
|---|---|
| CircuitBreaker, Retry, Providers, RateBound | the resilience stack around one integration |
| Registry, RegistryLaws, BroadcastOrder, BlockedReports, IntegrationsRegistry | per-tenant configuration, the provider cache, broadcasts and their reports, the scenario that trips a breaker |
| Sse, SseLaws, SseStandard | the Server-Sent-Events reader of the web client and the standard it reads |
| Scoring, ScoringLaws, ScoringValues | the four confidence scores |
| Workflow, WorkflowServices | the store and the services that write it |
| WorkflowGates, WorkflowHistory, WorkflowRecords, WorkflowEvents, WorkflowAnalyses | when each operation is accepted, and that every row, event and audit entry is what the operations of the run say |
| WorkflowFrames, WorkflowLogs, WorkflowReplay, WorkflowReplayDrift, WorkflowOutcomes, WorkflowIsolation | what every reachable store satisfies |
| Platform, PlatformLaws, PlatformAnnouncements, PlatformIsolation, PlatformServer | store and integrations together: the laws over every run of requests, what is announced, tenant isolation over two runs, and the running objects |
| Slug, Tokens, TokenChains, TokenRuns, TokenAcceptance | tenant slugs, registration, refresh-token rotation with overlapping refreshes |

Code that changes state is modelled as classes and methods over mutable fields (the breaker, the provider,
the registry and its cache, the services and their tables, the auth service) and as methods with
loops (retry, the stream reader and the block parser, the slug search, the broadcast and tripping loops). Each is
proved to do what a specification function says, and the laws are proved about those functions: over every
sequence of operations and, for the breaker, the provider and the refresh of tokens, over every interleaving of
overlapping calls, each of which is a begin step and later steps that complete it.

## Where the code does less than its documentation says

The model follows the code. For each of these the exact condition is proved, and that it can fail.

- "Exactly one HALF_OPEN probe" (apps/api/src/common/resilience/circuit-breaker.ts:27-28). Nothing limits
  the probes: every call that arrives between the end of the cooldown and the next completion is one.
  `ProbesLetThrough` counts them exactly, `OverlappingProbesAreUnbounded` has any number at once.
- "Exactly once per transition" for INTEGRATION_BLOCKED (docs/adr/0012-integration-resilience-and-tenant-config.md:36).
  It holds of a run iff no call in it fails while the breaker refuses new calls (`OneReportPerMoveIff`). Only a call
  that was under way when the breaker opened can do that (`LateCallOverlapsOpening`), so it holds of calls that do not
  overlap (`SequentialRunsReportEachMoveOnce`, `BlockedEventsEqualOpenings`); with overlap one move can be reported
  any number of times, whatever the threshold (`OverlappingCallsReportAgain`). Without a cooldown nothing is reported.
- "Always 0 for STUB_MODE/DEGRADED" (apps/api/src/integrations/integration-provider.interface.ts:22). A fallback
  repeats the freshness of the latest success, so it is 0 iff that was (`DegradedFreshnessIsZeroIff`), and 100 after a
  delivery (`DegradedAnswerCanCarrySignal`). The fixture network cannot show this, because a provider's credentials
  never change (`FixtureFallbackHasNoSignal`).
- "Must always recompute to that exact same number" (apps/api/src/decision-intelligence/decision-intelligence-engine.service.ts:143-146).
  `analyze` scores at its own `now`, `list` at the row's `createdAt`. What is rebuilt is exactly the score of the same
  evidence at the other instant; it is the stored number iff the decay in between leaves the score where it was
  (`ListReplaysStoredScores`, `ReplayIsExactIff`), always if there is no lag (`NoLagIsExact`), and a lag of a millisecond
  can be too much (`ListedFreshnessCanDiffer`).
- "The old one is revoked and cannot be reused" (docs/api/README.md:13). Once revoked, or past its time to live, it cannot
  (`NeverAcceptedOnceRevoked`, `AcceptedIffAt`),
  but before that it can be accepted more than once. `refresh` reads and later writes in separate
  statements, and no transaction spans them (apps/api/src/auth/auth.service.ts:111-135,
  apps/api/src/common/interceptors/tenant-rls.interceptor.ts:47-52). `AcceptedAtMostOnceIff` is the exact condition,
  `OverlappingRefreshesFork` what happens otherwise.
- The reader of apps/web/src/lib/sse.ts takes an LF-only subset of the event stream of sections 9.2.5 and 9.2.6
  of the WHATWG HTML Standard. On an LF-only text it agrees with the standard iff no block has a bare `data` line
  and, in every block with data, the last event name is the same to both: not padded, and not taken back by a bare
  `event` line (`ReaderMeetsStandardIff`).

## Assumptions

- A request of a signed-in user is one atomic transaction (apps/api/src/prisma/tenant-rls.context.ts:38-50). Refreshes and
  logouts are not: each of their statements is a step of its own.
- Generated ids and refresh tokens are not in use yet; token hashing is injective; decrypting what was
  encrypted gives it back, and any other ciphertext fails to decrypt.
- Columns start as apps/api/prisma/schema.prisma says: incidents and decisions OPEN, relationships SUGGESTED;
  slugs, token hashes, (tenant, provider) and an outcome's decision are unique.
- Clocks do not run backwards. The outcome laws also take it that no analysis is created at the instant
  of an earlier operation; `NewAnalysisKeepsLinkIff` says what happens otherwise.
- Times are whole milliseconds and scores exact rationals, with the decay factor in tenths because LOW is 0.3.
- Lower-casing a string is a parameter of `Slugify`; idempotence asks of it that it leaves slugs alone.

## Model

| member | source | states |
|---|---|---|
| `CircuitBreakers.BreakerRefinesHistory` | apps/api/src/common/resilience/circuit-breaker.ts:41-80 | In every interleaving of overlapping `execute` calls, for every threshold, the three stored fields are a function of the completion history: failures = trailing failures, OPEN iff they reach the threshold, `openedAt` = last completion time exactly then; `HALF_OPEN` is never stored |
| `CircuitBreakers.CallRefusedIff` | apps/api/src/common/resilience/circuit-breaker.ts:48-52 | In every interleaving a call is refused iff the trailing failures reach the threshold and the last completion is less than `resetTimeoutMs` ago; starting a call changes nothing else |
| `CircuitBreakers.TrailingFailuresIsLongestFailedSuffix` | apps/api/src/common/resilience/circuit-breaker.ts:70-72 | The reference count is the length of the longest all-failed suffix of the history, both directions |
| `CircuitBreakers.ProbesLetThrough` | apps/api/src/common/resilience/circuit-breaker.ts:23-30 | Documented "exactly one HALF_OPEN probe": between two completions a tripped breaker lets through exactly as many calls as arrive after the cooldown, so one iff one arrives |
| `CircuitBreakers.OverlappingProbesAreUnbounded` | apps/api/src/common/resilience/circuit-breaker.ts:41-49 | The counterexample, for every threshold and cooldown: for every n a run in which n probes are in flight at once on a tripped breaker |
| `CircuitBreakers.ProbeDecides` | apps/api/src/common/resilience/circuit-breaker.ts:54-61 | A probe that succeeds closes the circuit for every later call; one that fails refuses every call for exactly `resetTimeoutMs` from its completion |
| `CircuitBreakers.CircuitBreaker.Complete` | apps/api/src/common/resilience/circuit-breaker.ts:54-76 | The in-place `onSuccess` / `onFailure` update equals the transition the history theorem is about |
| `CircuitBreakers.CircuitBreaker.GetState` | apps/api/src/common/resilience/circuit-breaker.ts:41-46 | The observed state, HALF_OPEN included, read from the fields |
| `Retries.WithRetry` | apps/api/src/common/resilience/retry.ts:20-37 | At most `maxAttempts` calls; returns the first success and calls nothing after it, or throws the last error (`undefined` when no attempt is allowed); one wait of base·factor^(i−1) after each failed attempt but the last; the waits add up to the geometric sum |
| `Retries.RetryOutcome` | apps/api/src/common/resilience/retry.ts:24-36 | The result is determined by the wrapped function: it returns iff some allowed attempt succeeds, and any two results that meet the contract made the same number of calls |
| `Retries.TotalBackoffClosedForm` | apps/api/src/common/resilience/retry.ts:30-31 | Total wait = base·(factor^n − 1)/(factor − 1), or base·n when factor is 1 |
| `Providers.ProviderRefinesHistory` | apps/api/src/integrations/resilient-integration.provider.ts:54-61 | In every interleaving the provider's fields are those of its completion history: the breaker's, and the latest success in completion order with its time |
| `Providers.EveryAnswerFromHistory` | apps/api/src/integrations/resilient-integration.provider.ts:54-89 | In every interleaving every answer is fixed by the completions before it: refused iff the breaker refuses, a success passed through, anything else undelivered and DEGRADED with the latest success's freshness and reliability, or 0 and MOCK |
| `Providers.EndedExtendsHistory` | apps/api/src/integrations/resilient-integration.provider.ts:58-65 | A completion extends the history by one entry, for the breaker and for the last success alike |
| `Providers.CallsInTurnFollowHistory` | apps/api/src/integrations/resilient-integration.provider.ts:54-89 | Every sequence of undisturbed calls leaves the fields that its completions say, and the next call is answered as they say |
| `Providers.DegradedFreshnessIsZeroIff` | apps/api/src/integrations/integration-provider.interface.ts:22 | Documented "always 0 for DEGRADED": a fallback has freshness 0 iff there was no success or the latest one had freshness 0 |
| `Providers.DegradedAnswerCanCarrySignal` | apps/api/src/integrations/integration-provider.interface.ts:22 | The counterexample, for every threshold and cooldown: a success and then a failure, answered DEGRADED with freshness 100 |
| `Providers.FixtureFallbackHasNoSignal` | apps/api/src/integrations/network-simulator.ts:36-46 | With the fixture network, whatever the credentials, every DEGRADED answer of every run is undelivered with freshness 0 and MOCK |
| `Providers.FixtureAttempts` | apps/api/src/integrations/network-simulator.ts:36-46 | One attempt when the fixture network succeeds, all three when it fails |
| `Providers.ResilientIntegrationProvider.CallResilient` | apps/api/src/integrations/resilient-integration.provider.ts:54-66 | Always returns a result; one undisturbed call, for any wrapped function and retry options: refused as the history says and nothing changes, or one more completion is recorded and the answer is its result or the last known-good one of the history before it; number of network attempts |
| `Providers.ResilientIntegrationProvider.End` | apps/api/src/integrations/resilient-integration.provider.ts:58-65 | Completion half of a call: the fields stay those of the completion history, now one entry longer, and the answer is the result or the latest success of the history before it |
| `RateBound.NetworkAttemptsAreBounded` | apps/api/src/common/resilience/circuit-breaker.ts:48-80 | Over any window of W ms, non-overlapping calls of an always-failing provider make at most maxAttempts·(max(1, failureThreshold) + floor(W / resetTimeoutMs)) network attempts |
| `RateBound.RateBoundIsReached` | apps/api/src/integrations/integrations-registry.service.ts:18-22 | The bound is tight: for every threshold, cooldown and number of periods a schedule reaches it |
| `RateBound.AttemptsPerAdmittedCall` | apps/api/src/common/resilience/retry.ts:24-34 | Attempts in a window = maxAttempts per admitted call |
| `Registries.CacheKeyIsInjective` | apps/api/src/integrations/integrations-registry.service.ts:43 | `tenant:key` identifies tenant and key, even for tenant ids that contain colons, because no provider key does |
| `Registries.BroadcastEntry` | apps/api/src/integrations/integrations-registry.service.ts:69-100 | A broadcast calls each of its tenant's ten providers once and leaves every other tenant's provider and all rows alone |
| `RegistryLaws.AlwaysCoherent` | apps/api/src/integrations/integration-config.service.ts:31-74 | From a server start no sequence of configure, updateStatus, remove, getProvider, listAll and broadcast leaves a cached provider whose credentials differ from what `loadCredentials` would return now |
| `RegistryLaws.CoherenceKept` | apps/api/src/integrations/integrations-registry.service.ts:42-67 | Each of those operations keeps coherence of every tenant's every provider |
| `RegistryLaws.SummaryIsTruthful` | apps/api/src/integrations/integration-config.service.ts:93-108 | In every reachable state a summary says configured iff the row is ACTIVE and decrypts, and then the provider holds that row's credentials; it shows the row's status and time, or none, and the state of that provider's circuit |
| `RegistryLaws.SummariesInKeyOrder` | apps/api/src/integrations/integration-config.service.ts:76-91 | A listing has one summary for each of the ten keys, in their order |
| `BlockedReports.OneReportPerOpening` | apps/api/src/integrations/integrations-registry.service.ts:74-97 | For every sequence of undisturbed calls, outcomes and options: reports = openings in the completion history when resetTimeoutMs > 0, and none otherwise |
| `BlockedReports.ReportsInEveryInterleaving` | apps/api/src/integrations/integrations-registry.service.ts:74-97 | However calls overlap, there are as many reports as completions that leave the breaker tripped |
| `BlockedReports.ReportsAreMovesAndLateFailures` | apps/api/src/integrations/integrations-registry.service.ts:94-97 | In every interleaving the reports are the moves from not OPEN to OPEN plus the calls that fail while the breaker refuses new ones |
| `BlockedReports.OneReportPerMoveIff` | docs/adr/0012-integration-resilience-and-tenant-config.md:36 | Documented "exactly once per transition": holds of a run iff no call in it fails at a time at which the breaker, by its completion history, refuses new calls |
| `BlockedReports.LateCallOverlapsOpening` | apps/api/src/common/resilience/circuit-breaker.ts:48-62 | A call still under way while the breaker refuses new calls was under way both before and after the completion that opened the breaker: only overlap can break the claim |
| `BlockedReports.SequentialRunsReportEachMoveOnce` | apps/api/src/integrations/integrations-registry.service.ts:94-97 | In a run in which each call completes before the next begins, reports = moves into OPEN |
| `BlockedReports.OverlappingCallsReportAgain` | apps/api/src/integrations/integrations-registry.service.ts:94-97 | The counterexample, for every threshold: `extra` more overlapping failures than it takes to trip give one move into OPEN and 1 + `extra` reports |
| `RegistryLaws.BlockedEventsEqualOpenings` | apps/api/src/integrations/integrations-registry.service.ts:69-100 | In every run of non-overlapping broadcasts of any tenants, the INTEGRATION_BLOCKED events of one provider = its breaker's openings, and the breaker ends where its history says |
| `BroadcastOrder.BroadcastOrderDoesNotMatter` | apps/api/src/integrations/integrations-registry.service.ts:72-99 | In whatever order the ten concurrent calls complete, the broadcast leaves the same registry and raises the same events |
| `RegistryLaws.ScenarioTripsDatadog` | apps/api/src/simulation/simulation-scenario.service.ts:136-139 | From any coherent registry: DATADOG is CLOSED after the first two broadcasts, OPEN (until the cooldown) after the third, nine network attempts, one INTEGRATION_BLOCKED event, raised by the third |
| `RegistryService.TripCircuitBreaker` | apps/api/src/simulation/simulation-scenario.service.ts:177-185 | The counting loop of broadcasts on the mutable registry is three broadcasts in sequence, with their events in order |
| `RegistryService.DriveDatadogOpen` | apps/api/src/simulation/simulation-scenario.service.ts:136-139 | The scenario on the mutable registry: DATADOG OPEN since the third broadcast, exactly one event for it |
| `RegistryService.IntegrationsRegistry.GetProvider` | apps/api/src/integrations/integrations-registry.service.ts:42-58 | The cached provider object, or a fresh one with the row's credentials that is cached; every other entry untouched and unaliased |
| `RegistryService.IntegrationsRegistry.Broadcast` | apps/api/src/integrations/integrations-registry.service.ts:69-100 | Cache and provider objects afterwards, and the events raised, are those of the specification the laws above are about, with the calls completing in key order |
| `RegistryService.IntegrationsRegistry.Invalidate` | apps/api/src/integrations/integrations-registry.service.ts:65-67 | Only that tenant's entry for that key is dropped |
| `RegistryService.IntegrationConfigService.Configure` | apps/api/src/integrations/integration-config.service.ts:31-49 | Row upserted ACTIVE, provider replaced; the summary is configured, CLOSED, dated now |
| `RegistryService.IntegrationConfigService.UpdateStatus` | apps/api/src/integrations/integration-config.service.ts:51-69 | Not found iff there is no row, and then nothing changes; otherwise row and provider replaced, configured iff ACTIVE and readable |
| `RegistryService.IntegrationConfigService.Remove` | apps/api/src/integrations/integration-config.service.ts:71-74 | Row and cached provider gone, also when there was none |
| `RegistryService.IntegrationConfigService.ListAll` | apps/api/src/integrations/integration-config.service.ts:76-91 | Ten summaries, in key order, of the state before the call, although it builds providers as it goes |
| `RegistryService.IntegrationConfigService.ToSummary` | apps/api/src/integrations/integration-config.service.ts:93-108 | The summary of the provider as cached or as it is built |
| `Sse.StreamSse` | apps/web/src/lib/sse.ts:51-66 | For every way the network cuts the text: the events are those of the whole text split at its blank lines, the buffer is what follows the last one and holds no blank line, blocks with separators plus buffer make up the input; the inner loop ends because the buffer shrinks |
| `Sse.CutsAreUnique` | apps/web/src/lib/sse.ts:59-65 | There is only one way to cut a text at first blank lines, and `SplitAtBlanks` is it |
| `Sse.SplitCuts` | apps/web/src/lib/sse.ts:59-65 | Every text is cut so: nothing lost, nothing added, no blank line left over |
| `Sse.ParseSseBlock` | apps/web/src/lib/sse.ts:12-25 | The loop over lines equals the specification of a block: last `event:` line trimmed, `data:` lines less one space, joined; none without data |
| `SseLaws.RoundTrip` | apps/web/src/lib/sse.ts:51-66 | Any events, framed with one `data: ` line per line and any id, retry or comment lines anywhere, broken off anywhere and cut into any chunks, are read back exactly |
| `SseLaws.RoundTripOfText` | apps/web/src/lib/sse.ts:12-25 | The same for the whole text: decoding the encoding gives the events and leaves the unfinished tail |
| `SseLaws.FrameIsParsed` | apps/web/src/lib/sse.ts:15-24 | Every frame of an event parses to that event |
| `SseStandard.ReaderMeetsStandardIff` | apps/web/src/lib/sse.ts:12-66 | Exact condition, for every LF-only text: the reader yields what the interpreter of section 9.2.6 of the WHATWG HTML Standard dispatches iff no block has a bare `data` line and, in each block with data, the last event name is the same to both |
| `SseStandard.StandardEventsOfBlocks` | apps/web/src/lib/sse.ts:59-65 | The line-by-line standard also works block by block: its events are those of the blocks at blank lines, and the rest adds none |
| `SseStandard.ReaderMeetsStandard` | apps/web/src/lib/sse.ts:12-66 | In particular on every text without bare field names and padded event names |
| `SseStandard.AgreementNeedsConformance` | apps/web/src/lib/sse.ts:16-19 | Each line that is not so does make a difference: a line conforms iff reader and standard agree on the text built around it |
| `Common.TrimTakesTheEnds` | apps/web/src/lib/sse.ts:16-17 | What `trim` leaves is the text without all the white space at its two ends and without anything else |
| `ScoringLaws.ContractRejectsIff` | apps/api/src/decision-intelligence/dto/confidence-dimensions.dto.ts:8-32 | The 0..100 checks reject iff some evidence is at least half a point of decay in the future |
| `ScoringLaws.NoFutureEvidenceMeetsContract` | apps/api/src/decision-intelligence/dto/confidence-dimensions.dto.ts:8-32 | No evidence later than `now`: all four scores are in 0..100 |
| `ScoringLaws.ScoresIgnoreOrder` | apps/api/src/decision-intelligence/confidence-breakdown.ts:40-56 | All four scores depend only on the multiset of evidence |
| `ScoringLaws.MoreEvidenceNeverLowers` | apps/api/src/decision-intelligence/confidence-breakdown.ts:40-56 | One more item never lowers completeness, freshness or certainty |
| `ScoringLaws.MeanWeightDropsIff` | apps/api/src/decision-intelligence/scoring/source-reliability.ts:24-34 | Reliability, a mean, is the exception: an item lowers the mean iff its weight is below it |
| `ScoringLaws.ReliabilityDropsIff` | apps/api/src/decision-intelligence/scoring/source-reliability.ts:24-34 | The rounded score drops iff the new total is more than half a point short of the old score; only a weight below the mean can lower it, only one above can raise it |
| `ScoringLaws.CertaintyRange` | apps/api/src/decision-intelligence/scoring/ai-certainty.ts:19-36 | Certainty is in 0..90 and six conflicts force it to 0 |
| `ScoringLaws.ReliabilityRange` | apps/api/src/decision-intelligence/scoring/source-reliability.ts:24-34 | 0 without evidence, otherwise 40..95 |
| `ScoringLaws.CompletenessCounts` | apps/api/src/decision-intelligence/scoring/evidence-completeness.ts:44-58 | Present and missing split the required sources; 100 iff nothing is missing |
| `ScoringValues.CompletenessIsShare` | apps/api/src/decision-intelligence/scoring/evidence-completeness.ts:44-58 | Completeness is the share of the required sources that are present, to the nearest per cent, halves up; 100 when none are required |
| `ScoringValues.ReliabilityIsMean` | apps/api/src/decision-intelligence/scoring/source-reliability.ts:24-34 | Reliability is the total weight of the evidence over its number, to the nearest integer; each item adds the weight of its category |
| `ScoringValues.FreshnessIsWhatIsLeft` | apps/api/src/decision-intelligence/scoring/data-freshness.ts:25-41 | Freshness is what the decay since the latest item leaves of 100, to the nearest integer, and 0 once it would be less than half a point |
| `ScoringValues.VolumeSteps` | apps/api/src/decision-intelligence/scoring/ai-certainty.ts:19-36 | One more item is worth 15 points up to the fourth, 10 for the fifth, and nothing after it |
| `ScoringValues.DiversitySteps` | apps/api/src/decision-intelligence/scoring/ai-certainty.ts:19-36 | One more category of source is worth 7, 7, 6, and nothing after the third |
| `ScoringValues.ConflictSteps` | apps/api/src/decision-intelligence/scoring/ai-certainty.ts:19-36 | One more conflict takes off 15, or what is left; with certainty 0 for nothing at all, these three fix every value |
| `ScoringValues.SourcesExplain` | apps/api/src/decision-intelligence/confidence-breakdown.ts:40-56 | The breakdown splits the required sources into present and missing, and its per-item contributions, one per item in order, add up to the mean it gives |
| `ScoringValues.LatestExplains` | apps/api/src/decision-intelligence/confidence-breakdown.ts:40-56 | It names the first of the latest items and its age in whole minutes, or nothing iff there is no evidence |
| `ScoringValues.CountsExplain` | apps/api/src/decision-intelligence/confidence-breakdown.ts:40-56 | Its certainty is its volume and diversity parts less its penalty, for the number of items, categories and conflicts there are |
| `ScoringLaws.FreshnessDrift` | apps/api/src/decision-intelligence/scoring/data-freshness.ts:25-41 | d ms later freshness is never higher and lower by at most the decay over d, rounded up |
| `ScoringLaws.ReplayIsExactIff` | apps/api/src/decision-intelligence/confidence-breakdown.ts:32-39 | Documented "always matches what was stored": for given evidence and two instants, in either order, freshness comes out the same iff the decay between them stays within the rounding step, or both scores are down to 0 |
| `ScoringLaws.ReplayIsAlwaysExactIff` | apps/api/src/decision-intelligence/confidence-breakdown.ts:32-39 | For all evidence it does iff the two instants are the same |
| `Scoring.LatestIndex` | apps/api/src/decision-intelligence/scoring/data-freshness.ts:34-36 | The reduce picks the first of the latest items |
| `WorkflowReplay.ListReplaysStoredScores` | apps/api/src/decision-intelligence/decision-intelligence-engine.service.ts:119-157 | In every reachable state `list` holds each stored analysis as often as the table does if it is of this tenant and incident, and not otherwise, newest first; each was made by an operation of the run, and what is rebuilt for it has the completeness, reliability and certainty stored whatever was added since, and a freshness off by at most the decay over that operation's own lag, in its direction, and equal iff that decay leaves the score where it was |
| `WorkflowReplay.NoLagIsExact` | apps/api/src/decision-intelligence/decision-intelligence-engine.service.ts:143-153 | So an analysis created at its scoring instant is listed exactly as stored |
| `WorkflowReplay.AnalysesAreTraced` | apps/api/src/decision-intelligence/decision-intelligence-engine.service.ts:79-99 | In every reachable state each stored analysis was made by some operation of the run and has the scores of its own evidence, as stored now, at that operation's instant |
| `WorkflowReplay.AcceptedAnalysisStays` | apps/api/src/decision-intelligence/decision-intelligence-engine.service.ts:79-100 | Every accepted analysis is in every later state |
| `WorkflowReplay.AcceptedAnalysisIsListed` | apps/api/src/decision-intelligence/decision-intelligence-engine.service.ts:119-124 | And every accepted analysis is listed for its incident in every later state |
| `WorkflowAnalyses.AnalysisSaysWhatWasAsked` | apps/api/src/decision-intelligence/decision-intelligence-engine.service.ts:79-100 | An accepted analysis has the tenant, incident, author, time, conflicts and content of its request |
| `WorkflowAnalyses.AnalysisUsesItsIncidentsEvidence` | apps/api/src/decision-intelligence/decision-intelligence-engine.service.ts:48 | Its `evidenceUsed` are, in order, the ids of exactly the rows of the evidence table that are of its tenant and incident at that moment |
| `WorkflowAnalyses.UsedIdsAreDistinct` | apps/api/src/decision-intelligence/decision-intelligence-engine.service.ts:73-77 | With fresh ids no id is used twice |
| `WorkflowAnalyses.AnalysisMissesWhatIsNotCovered` | apps/api/src/decision-intelligence/decision-intelligence-engine.service.ts:70-77 | Its missing information is exactly the sources that its incident's type requires and no such row covers |
| `WorkflowReplay.ListReplaysWithinLag` | apps/api/src/decision-intelligence/decision-intelligence-engine.service.ts:119-157 | Corollary: if no analysis of the run lags more than a bound, none is listed further off than it allows |
| `WorkflowReplayDrift.ListedFreshnessCanDiffer` | apps/api/src/decision-intelligence/decision-intelligence-engine.service.ts:143-153 | The counterexample, for every type and severity: a run after which `list` returns less freshness than was stored, with a lag of as little as a millisecond |
| `WorkflowReplay.FidelityKept` | apps/api/src/decision-intelligence/decision-intelligence-engine.service.ts:40-117 | No later operation changes what a stored analysis is rebuilt from |
| `WorkflowReplay.BatchServesEach` | apps/api/src/decision-intelligence/decision-intelligence-engine.service.ts:129-141 | The one batched query over all used ids serves each analysis as a query of its own would |
| `WorkflowReplay.NewestFirstOrders` | apps/api/src/decision-intelligence/decision-intelligence-engine.service.ts:121-124 | The listing is a reordering of all rows by descending creation time |
| `WorkflowOutcomes.OutcomesLinkInformingAnalysis` | apps/api/src/decision-outcomes/decision-outcomes.service.ts:34-78 | In every reachable state while time moves on: each outcome is of a DECIDED decision of a CLOSED incident of its tenant and links to the latest analysis no later than the decision, or to none iff there is none |
| `WorkflowOutcomes.InformingIsLatest` | apps/api/src/decision-outcomes/decision-outcomes.service.ts:58-67 | The query picks a latest candidate, and nothing iff there is none |
| `WorkflowOutcomes.NewAnalysisKeepsLinkIff` | apps/api/src/decision-outcomes/decision-outcomes.service.ts:55-57 | Exactly when a later analysis leaves a right link right |
| `WorkflowOutcomes.OutcomeIsPermanent` | apps/api/src/decision-outcomes/decision-outcomes.service.ts:50-53 | One outcome per decision: once recorded it never changes |
| `WorkflowGates.UpdateStatusAcceptedIff` | apps/api/src/incidents/incidents.service.ts:130-159 | Accepted iff the incident is the tenant's and the new status is the next one; not found and bad request exactly otherwise, with nothing changed |
| `WorkflowGates.OpenDecisionAcceptedIff` | apps/api/src/decisions/decisions.service.ts:17-46 | Accepted iff the incident is known and the tenant's |
| `WorkflowGates.DecideAcceptedIff` | apps/api/src/decisions/decisions.service.ts:64-80 | Accepted iff the decision is the tenant's and undecided, and the person named as decider, whoever acts, is a member |
| `WorkflowGates.CancelAcceptedIff` | apps/api/src/decisions/decisions.service.ts:115-141 | Accepted iff the decision is the tenant's and undecided |
| `WorkflowGates.AddEvidenceAcceptedIff` | apps/api/src/evidence/evidence.service.ts:15-29 | Not found iff the incident is not the tenant's; bad request iff a decision is named that is not of this tenant and incident |
| `WorkflowGates.AnalyzeAcceptedIff` | apps/api/src/decision-intelligence/decision-intelligence-engine.service.ts:40-77 | Accepted iff the incident is the tenant's, the submission valid, and no evidence of the incident so far in the future that its freshness would exceed 100 |
| `WorkflowGates.RecordOutcomeAcceptedIff` | apps/api/src/decision-outcomes/decision-outcomes.service.ts:34-53 | Which of the four refusals, if any, in terms of the decision, its incident and the outcomes recorded |
| `WorkflowGates.RelateAcceptedIff` | apps/api/src/relationships/relationships.service.ts:24-61 | Accepted iff both ends are the tenant's entities and the cited evidence is the tenant's |
| `WorkflowGates.ConfirmAcceptedIff` | apps/api/src/relationships/relationships.service.ts:63-97 | Accepted iff the relationship is the tenant's and suggested, and some citation of it is stored |
| `WorkflowGates.RejectAcceptedIff` | apps/api/src/relationships/relationships.service.ts:99-120 | Accepted iff the relationship is the tenant's and suggested |
| `WorkflowHistory.MembersAreThoseAdded` | apps/api/src/decisions/decisions.service.ts:72-79 | The members a decision is checked against are those added and not removed since |
| `WorkflowHistory.IncidentsAreWhatWasDone` | apps/api/src/incidents/incidents.service.ts:29-62 | In every reachable state each incident is, field by field, what the operations of the run say: created as asked, moved one step at a time by its tenant, dated when closed |
| `WorkflowHistory.DecisionsAreWhatWasDone` | apps/api/src/decisions/decisions.service.ts:17-141 | Each decision is, field by field, what the operations say: opened on an incident of its tenant, decided by a person who was a member, or cancelled |
| `WorkflowHistory.DecidedOnce` | apps/api/src/decisions/decisions.service.ts:64-71 | A decision is decided by at most one operation of a run |
| `WorkflowEvents.DecidedDecisionsAreTraced` | apps/api/src/decisions/decisions.service.ts:82-103 | Each decided decision in a reachable store was decided by an operation of the run that names the person, text, reason and time it has; that person was a member then, and its timeline event names the same person |
| `WorkflowRecords.EvidenceIsWhatWasAdded` | apps/api/src/evidence/evidence.service.ts:10-57 | The evidence table is, in order and field by field, what accepted operations added |
| `WorkflowRecords.OutcomesAreWhatWasRecorded` | apps/api/src/decision-outcomes/decision-outcomes.service.ts:69-78 | Each outcome has the quality, author and time of the operation that recorded it, at a time when its decision was decided and its incident closed |
| `WorkflowRecords.RelationshipsAreWhatWasDone` | apps/api/src/relationships/relationships.service.ts:24-120 | Relationships and citations are what was related, confirmed with a citation, or rejected |
| `WorkflowEvents.TimelineIsWhatWasDone` | apps/api/src/incidents/incidents.service.ts:45-53 | The timeline is exactly one event for each accepted operation that leaves one, in order, with its own incident, decision and actor |
| `WorkflowEvents.AuditIsWhatWasDone` | apps/api/src/audit-log/audit-log.service.ts:35-51 | The audit log is exactly one entry for each accepted change of a relationship, in order |
| `WorkflowLogs.LogsReplayToCurrentState` | apps/api/src/incidents/incidents.service.ts:130-159 | In every reachable state replaying the timeline and the audit log gives the status of every incident, decision and relationship; each change starts where the last ended, at most three, closedAt set iff CLOSED, DECIDED iff a named human, a text and a time, every relationship cited |
| `WorkflowLogs.IncidentReplayKept` | apps/api/src/incidents/incidents.service.ts:139-156 | Every operation keeps an incident equal to what its events replay to |
| `WorkflowLogs.DecisionReplayKept` | apps/api/src/decisions/decisions.service.ts:58-141 | The same for decisions |
| `WorkflowLogs.RelationshipReplayKept` | apps/api/src/relationships/relationships.service.ts:41-120 | The same for relationships and the audit log |
| `WorkflowLogs.DecidedIsFinal` | apps/api/src/decisions/decision.state-machine.ts:9-13 | A decided or cancelled decision never changes again in any field |
| `WorkflowLogs.IncidentOnlyAdvances` | apps/api/src/incidents/incident.state-machine.ts:4-10 | Over any run an incident only moves forward and changes nothing but status and closing time |
| `WorkflowServices.Services.CreateIncident` | apps/api/src/incidents/incidents.service.ts:29-62 | In place: row, timeline event and broadcast with its events, as one request of the specification |
| `WorkflowServices.Services.UpdateStatus` | apps/api/src/incidents/incidents.service.ts:130-159 | In place: refused and unchanged, or row and event written |
| `WorkflowServices.Services.OpenDecision` | apps/api/src/decisions/decisions.service.ts:17-46 | In place: not found for another tenant's incident, or row and event written |
| `WorkflowServices.Services.Decide` | apps/api/src/decisions/decisions.service.ts:58-113 | In place: all three refusals leave everything as it was; otherwise row, event and broadcast |
| `WorkflowServices.Services.Cancel` | apps/api/src/decisions/decisions.service.ts:115-141 | In place: refused and unchanged, or row and event written |
| `WorkflowServices.Services.AddEvidence` | apps/api/src/evidence/evidence.service.ts:10-57 | In place: the decision must belong to the incident and tenant; rows are only ever added |
| `WorkflowServices.Services.Analyze` | apps/api/src/decision-intelligence/decision-intelligence-engine.service.ts:40-117 | In place: scored at `now`; rejected if the submission is invalid or a score out of range; otherwise row, with the caller's fields, and event |
| `WorkflowServices.Services.ListAnalyses` | apps/api/src/decision-intelligence/decision-intelligence-engine.service.ts:119-157 | Answers as the specification that the replay laws are about, and changes nothing |
| `WorkflowServices.Services.RecordOutcome` | apps/api/src/decision-outcomes/decision-outcomes.service.ts:28-93 | In place: the four gates in order, then row and event |
| `WorkflowServices.Services.Relate` | apps/api/src/relationships/relationships.service.ts:24-61 | In place: row, citation and audit entry |
| `WorkflowServices.Services.Confirm` | apps/api/src/relationships/relationships.service.ts:63-97 | In place: refused without a citation; row and audit entry |
| `WorkflowServices.Services.Reject` | apps/api/src/relationships/relationships.service.ts:99-120 | In place: row and audit entry |
| `Platform.PlatformRunsAreStoreRuns` | apps/api/src/prisma/tenant-rls.context.ts:38-50 | Every run of requests, integrations and broadcasts included, leaves the store as some run of store operations with fresh ids does |
| `PlatformLaws.PlatformLogsReplay` | apps/api/src/incidents/incidents.service.ts:130-159 | So in every run of requests the timeline and audit log replay to every current status |
| `PlatformLaws.PlatformOutcomesLinkInformingAnalysis` | apps/api/src/decision-outcomes/decision-outcomes.service.ts:34-78 | And if the requests' clock moves on, every outcome link is right |
| `PlatformLaws.PlatformListReplaysStoredScores` | apps/api/src/decision-intelligence/decision-intelligence-engine.service.ts:119-157 | And every listing holds exactly the stored analyses of its tenant and incident and replays, for each, what the request that made it was answered with, as of that request's own scoring and creation times |
| `PlatformLaws.AnsweredIsListed` | apps/api/src/decision-intelligence/decision-intelligence-engine.service.ts:119-124 | Every analysis that a request was answered with is listed from then on, in every run of requests |
| `PlatformAnnouncements.RequestsAnnounce` | apps/api/src/decisions/decisions.service.ts:105-110 | In every run of requests one that creates an incident, or decides a decision of its tenant that is undecided by a member, calls each of the tenant's ten providers once and nobody else's, changes no configuration, and adds to the timeline after its own event one for each circuit this opened, with the answer of that call; every other request to the store, and every refused one, reaches no provider |
| `PlatformAnnouncements.WhatIsAnnounced` | apps/api/src/incidents/incidents.service.ts:55-59 | Which requests broadcast, for which incident and from when, in terms of the rows |
| `PlatformLaws.PlatformListReplaysWithinLag` | apps/api/src/decision-intelligence/decision-intelligence-engine.service.ts:119-157 | And if no analysis request lags more than a bound, no listing is further off than it allows |
| `PlatformServer.Controllers.Serve` | apps/api/src/prisma/tenant-rls.context.ts:38-50 | One request on the mutable tables, cache and provider objects: new state and reply are the specification's, so the running objects are always where the requests served so far lead |
| `PlatformServer.TablesObeyTheLaws` | apps/api/src/prisma/tenant-rls.context.ts:38-50 | Whatever has been served, the mutable tables replay their logs and, if the clock moves on, link outcomes right |
| `PlatformServer.TablesListWhatWasAnswered` | apps/api/src/prisma/tenant-rls.context.ts:38-50 | And whatever they list is complete and replays what was answered when it was made |
| `PlatformServer.TablesListEveryAnswer` | apps/api/src/decision-intelligence/decision-intelligence-engine.service.ts:119-124 | And lists every analysis that was answered |
| `PlatformServer.ServedTenantsAreIsolated` | docs/adr/0004-multi-tenancy-shared-schema.md:17 | Two running platforms that served a tenant the same requests, mixed with any of others, look the same to it |
| `WorkflowIsolation.EveryOpIsolated` | apps/api/src/decisions/decisions.service.ts:143-149 | Each operation of a tenant sees and writes only its own rows and gives the answer it would give on them alone; another tenant's rows do not change |
| `WorkflowIsolation.OutcomesOwnedKept` | apps/api/src/decision-outcomes/decision-outcomes.service.ts:50-53 | The one lookup without a tenant is safe: an outcome always has the tenant of its decision |
| `PlatformIsolation.TenantsAreIsolated` | docs/adr/0004-multi-tenancy-shared-schema.md:17 | Two-run isolation: from systems alike to a tenant, runs that interleave its requests with anything other tenants do give it the same replies and leave it the same rows, configurations, breakers and last successes |
| `PlatformIsolation.OthersAreUntouched` | docs/adr/0004-multi-tenancy-shared-schema.md:17 | No sequence of other tenants' requests changes anything of a tenant |
| `PlatformIsolation.KeyByKey` | apps/api/src/integrations/integrations-registry.service.ts:42-58 | What each registry operation does to one tenant's one provider, as a function of that provider and row alone |
| `Slugs.FindFreeSlug` | apps/api/src/auth/auth.service.ts:43-46 | With n slugs taken the search makes at most n + 1 lookups and stops at the first free one of base, base-2, base-3, … |
| `Slugs.TakenCandidates` | apps/api/src/auth/auth.service.ts:44-46 | Pigeonhole: no more candidates are taken than there are slugs |
| `Slugs.CandidatesDiffer` | apps/api/src/auth/auth.service.ts:45 | All candidates differ, because decimal notation is injective |
| `Slugs.CandidateIsNumbered` | apps/api/src/auth/auth.service.ts:44-46 | The i-th candidate after the base is the base, a hyphen and the decimal numeral of i + 1, without leading zeros |
| `Tokens.AuthService.Register` | apps/api/src/auth/auth.service.ts:33-60 | Refused, with nothing changed, iff the email is taken; otherwise user, tenant with the first free slug, OWNER membership and tokens are added, and emails and slugs stay distinct and slugs well formed |
| `Slugs.SlugIsWellFormed` | apps/api/src/auth/auth.service.ts:16-24 | Non-empty, letters and digits with single inner hyphens only |
| `Slugs.SlugifyIsIdempotent` | apps/api/src/auth/auth.service.ts:16-24 | Slugs are fixed by `slugify` |
| `Slugs.SlugKeepsLetters` | apps/api/src/auth/auth.service.ts:16-24 | A slug has exactly the letters and digits of the lower-cased name, in order; `tenant` when there are none |
| `Slugs.SlugIsHyphenedWords` | apps/api/src/auth/auth.service.ts:16-24 | A slug is the longest runs of letters and digits of the lower-cased name, in order, with one hyphen between each two; `tenant` when there are none |
| `TokenRuns.AcceptedAtMostOnceIff` | apps/api/src/auth/auth.service.ts:111-125 | In every run, statements of different refreshes interleaved: a token is accepted at most once iff no refresh reads it, still good, while another has read it and not yet written |
| `TokenAcceptance.AcceptedIffAt` | apps/api/src/auth/auth.service.ts:112-120 | In every interleaving a refresh is accepted iff the token it reads was issued by an earlier step, at most the time to live ago, and no step between logged it out or was the write of a refresh of it |
| `TokenAcceptance.ExpiredIsNeverAccepted` | apps/api/src/auth/auth.service.ts:118-120 | So after its time to live no refresh accepts a token, in any interleaving |
| `TokenAcceptance.RevokedIffEnded` | apps/api/src/auth/auth.service.ts:122-143 | A token is revoked iff some step since it was issued logged it out or wrote that it was spent |
| `TokenAcceptance.IssuedOnlyToMembers` | apps/api/src/auth/auth.service.ts:127-134 | In every run a login or the end of a refresh issues its token iff the owner has been made a member and not removed since; otherwise it is refused |
| `TokenAcceptance.OwnersDescend` | apps/api/src/auth/auth.service.ts:165-181 | A token issued by a login belongs to who logged in, one issued by a refresh to the owner of the token it read |
| `TokenRuns.NeverAcceptedOnceRevoked` | apps/api/src/auth/auth.service.ts:118-120 | In every interleaving a revoked token is never accepted again |
| `TokenRuns.LoggedOutIsNeverAccepted` | apps/api/src/auth/auth.service.ts:137-143 | In every interleaving no refresh reads a token as good after its logout |
| `TokenRuns.OverlappingRefreshesFork` | apps/api/src/auth/auth.service.ts:111-135 | The counterexample: two overlapping refreshes of one token are both accepted, leave two usable successors, and redate its revocation |
| `TokenRuns.RefreshUnderWayOutlivesLogout` | apps/api/src/auth/auth.service.ts:137-143 | A refresh that had read its token before the logout still issues a new one |
| `TokenRuns.TokensStay` | apps/api/src/auth/auth.service.ts:122-125 | In every interleaving a stored token stays, keeps owner and expiry, and stays revoked once it is |
| `TokenRuns.RevocationIsPermanent` | apps/api/src/auth/auth.service.ts:122-125 | A revocation keeps its date as long as no refresh writes to a token that is revoked already |
| `TokenRuns.LateSpendRedates` | apps/api/src/auth/auth.service.ts:122-125 | And such a write gives it its own date |
| `TokenRuns.LateSpendOverlapsRevocation` | apps/api/src/auth/auth.service.ts:113-125 | Only a refresh between whose read and write something else revoked the token writes so |
| `TokenRuns.UndisturbedRunsAreSafe` | apps/api/src/auth/auth.service.ts:111-125 | Corollary: if nothing comes between the read and the write of any refresh, none overlap, each token is accepted at most once and no revocation is redated |
| `TokenRuns.OneLiveTokenPerLogin` | apps/api/src/auth/auth.service.ts:111-135 | As long as refreshes of the same token do not overlap, whatever else does: the tokens descending from one login form a chain in which each was replaced by the next, and all but the last are revoked |
| `TokenRuns.RunsMatchTheirLog` | apps/api/src/auth/auth.service.ts:165-181 | In every such run the token table and the log of issued tokens agree, each token has at most one successor, for which it was revoked, and refreshes under way have a token each that nothing has replaced |
| `TokenRuns.UndisturbedRefresh` | apps/api/src/auth/auth.service.ts:111-135 | The three steps of a refresh in a row are the refresh as one operation |
| `TokenRuns.FailedRefreshSpendsToken` | apps/api/src/auth/auth.service.ts:122-132 | In every interleaving a refresh that fails for a missing membership has spent its token for good |
| `Tokens.AuthService.FindUsable` | apps/api/src/auth/auth.service.ts:112-120 | The lookup and its guard: the stored row iff the token is stored, not revoked and not expired |
| `Tokens.AuthService.Spend` | apps/api/src/auth/auth.service.ts:122-125 | The update, which does not look at the row again |
| `Tokens.AuthService.FinishRefresh` | apps/api/src/auth/auth.service.ts:127-134 | The rest: refused without a membership, otherwise new tokens |
| `Tokens.AuthService.RefreshToken` | apps/api/src/auth/auth.service.ts:111-135 | The three in place with nothing between them: rejected and unchanged; or revoked, then refused or reissued |
| `Tokens.AuthService.LogOut` | apps/api/src/auth/auth.service.ts:137-143 | In place: revoked unless unknown or revoked already |

## Left out

- GetProvider: two overlapping first calls for the same key both build a provider in the code and the later one stays cached; registry operations here are atomic.
- Broadcast: the ten calls of one broadcast all begin at the same time and complete in key order, each at the time its parameter says; `BroadcastOrderDoesNotMatter` covers every other order but for the order in which events are inserted. The catch around a provider that throws, which never does, is left out.
- ResilientIntegrationProvider.End: the breaker and the last success change in one step; the code sets `lastSuccess` a microtask after the breaker.
- FixtureFallbackHasNoSignal: covers the fixture network only, as `DegradedAnswerCanCarrySignal` shows it must; `EveryAnswerFromHistory` covers any network.
- BlockedEventsEqualOpenings: for broadcasts that do not overlap; `ReportsAreMovesAndLateFailures` covers overlapping calls of one provider.
- TenantsAreIsolated: isolation by tenant-filtered queries; row-level security in Postgres, the second layer, is not part of this model, and broadcasts of one request do not overlap those of another.
- CreateIncident, Decide: a transaction that is rolled back after its broadcast leaves the in-memory breakers changed; rollback is not modelled.
- Serve: each request is served whole before the next; controllers' routing, guards and validation are left out.
- Analyze: the caller's fields other than the conflicts are one opaque text, and whether they pass validation is a flag of the submission; the 0..100 checks are modelled.
- AddEntity, AddMember, RemoveMember: the services that write entities and memberships, with their own rules, are reduced to unconditional writes.
- ConfigurableIntegrationProvider and FixtureNetworkSimulator are one function of the credentials; message texts are datatypes.
- The `compute…` and `explain…` functions of the scoring files are one function each: an explanation takes its score from the other.
- StreamSse: chunks are decoded text; `fetch`, error responses, UTF-8 decoding, byte-order marks, releasing the reader and a consumer that stops early are left out. Strings are sequences of characters, not UTF-16 units.
- Login: only that a member is issued tokens; passwords, tenant selection and signed access tokens are left out. Roles are stored at registration and not used after it.
- OneLiveTokenPerLogin: the lookup of the membership and the insert of the new token are one step, after the update; the chain is promised for refreshes of the same token that do not overlap, which `OverlappingRefreshesFork` shows is needed.
- Register: atomic here; of two registrations at once the unique index decides in the code. Hashing the password is a parameter, and the signed access token is left out.
- Getters that only read and filter (`findOne`, `getTimeline`, `getCommandCenterSummary`, the audit query), which would add easy members.
- Actions, lessons learned, briefs, reports, calibration means, geospatial search, roles, webhooks, AI drafting, controllers and the user interface.
- The rest of the simulation scenarios: sequences of the writes modelled here with fixed texts.
