# Crucible: a verified model of its cache, its governed workflows and its safeguards

Crucible is a decision platform for mine operations. This project models the parts of it whose
correctness depends on order, failure and time, and proves what they keep:

- **The tiered cache** (`app/api/core/cache.py`): the in-process LRU cache, the circuit breaker
  and the client behind it, the reference-counted lock pool, the key builder and invalidation,
  each as a class or method against a specification; and the whole of `get`, `set`, `get_or_set` and the background refresh
  as a step system. There, any number of workers and threads interleave over one remote store
  that an adversary may fail, empty or corrupt at every step, on one clock that never runs back.
- **Governed state machines**: response plans with their transactional audit trail
  (`decision_store.py`), the older decisions API that walks the same lifecycle in compound steps
  (`decisions.py`), the model registry (`model_approval.py`, the de-duplication in
  `migrate_all.py`) and the loader that serves champions (`ml_loader.py`).
- **Small hard pieces**: the trend verdict (`equipment.py`), evidence grading (`evidence.py`),
  replay protection (`gateway_auth.py`) and short-lived memoisation (`memo.py`).

How it is organised. Each component has a module. Code that updates state is a class whose methods
are proved equal to a pure step function (`Step`, `Handle`, `Use`, ...); the theorems are then about
every sequence of those steps. The cache manager, whose methods interleave, is a step function only. Floating-point numbers are reals, clocks are reals or integers,
strings are sequences of characters. A transaction works on a copy of the tables that replaces
them on commit. What the program does not control - which thread runs, what a remote store or a
database answers, which statement raises, what time it is - is an input chosen by the adversary.

| module | component |
|---|---|
| `L1`, `Breaker`, `L2Client`, `Flight`, `CacheKey`, `KeyAmbiguity` | the cache's parts |
| `Tiered` | the step system of the whole cache |
| `Lineage`, `Coalescing`, `SingleProduction` | what it keeps: origin and age; locks, refreshes and counters; one producer run |
| `WriteThrough`, `ReadBack`, `Necessity`, `LocalTier` | what it does: where a write gets to; what a look finds; why a producer runs; the L1 of a worker as one sequential run |
| `Lifecycle`, `Transactions`, `DecisionStore`, `DecisionsRouter` | plans and decisions |
| `Registry`, `RegistryThreads`, `Serving`, `ServingThreads` | models: governance and serving |
| `Trend`, `Evidence`, `Gateway`, `GatewayThreads`, `Memo` | the small pieces |
| `Basics`, `Rbac` | shared vocabulary |

## Where the code and its description part, and exact conditions

The model follows the code. Where a natural claim fails, the project proves when it holds.

- A breaker threshold below 1 acts as 1 (`Breaker.Characterisation`); a recorded success closes
  even a disabled circuit, and a half-open circuit admits any number of attempts, not one probe.
- With `max_entries` below 1 the entry just written is itself evicted (`L1.EvictionVictim`).
- The breaker does not limit what is in flight when it trips, and lets any number of probes
  through: the cost of an outage is a matter of the number of threads (`L2Client.OutageIsCheap`).
- Key components are not escaped: `KeyAmbiguity.KeyIsSharedIff` says exactly which requests share
  their key with another one. An entity named like another component invalidates more than itself
  (`CacheKey.EntityNamedP`).
- A trend can be missed from 60 readings on (`Trend.StepAtEndVerdict`); the window has 30.
- The decisions API swallows what its audit insert raises. If the server refused it, the
  transaction is aborted and COMMIT rolls it back, yet the endpoint answers with the new state:
  `Transactions.ReplyIff` says when such a reply is true, `DecisionsRouter.AnswerIsTrueIff` applies it.
- The migration leaves several champions exactly when one without a promotion date has company
  (`Registry.DeduplicationSuffices`).
- `ml_loader.py` promises that the version reported is that of the model in memory. In runs of
  serving calls that do not overlap and no promotion, two things break it and no others
  (`Serving.TruthIsKeptIff`, `Serving.RunIsTruthfulIff`): a model loaded at start-up is given the
  champion's version on first use without a look at it (`Serving.StartUpModelIsMisnamed`), and an
  artifact without a recorded checksum can be the file of an older version
  (`Serving.StaleArtifactIsSwappedIn`). Promotions and rollbacks write the same cells: one that
  fails after its reload leaves a model that the recorded version does not name, for good if the
  champion's is recorded (`ServingThreads.PromotionSticksIff`), and the next call, alone, answers
  SYNCED with it (`ServingThreads.LateFailureTearsAnswers`).
- It also documents UNAVAILABLE as "no model loaded"; the code answers so exactly for unknown tasks
  (`Serving.AnswerMatchesMemory`). Two spellings of versions confuse the strings in an answer
  (`Serving.ReportedStringsAgreeIff`).
- Nothing locks the model and its recorded version together. Over every interleaving of calls and
  promotions, `ServingThreads.AnswerIsRightIff` says when an answer is right and
  `ServingThreads.MemoryAgreesIff` when memory is. Overlapping calls can answer SYNCED with a wrong
  model (`ServingThreads.OverlapTearsAnswers`), and two calls that swap at once can leave one in
  place for good (`ServingThreads.CrossedSwapsStick`).
- The registry's endpoints do not look at the model again inside the transaction: a task loses its
  last champion exactly when an approval or rejection checked earlier commits on that champion
  (`RegistryThreads.AlwaysServedIff`, `RegistryThreads.LateRejectionLeavesNone`).
- A request stamped ahead of the engine's clock can outlive its nonce: `Gateway.ReplayAcceptedIff`
  says exactly when a repeated request is accepted, `Gateway.AheadIsReplayed` gives a run.
  Copies that overlap while a body is awaited can both get through (`GatewayThreads.AcceptedTwiceIff`).
- `ttl_cache` with `maxsize` of zero or less raises on every computed value,
  and on unhashable arguments before the function is called
  (`Memo.SizeLimitRaisesIff`).

## Model

| member | source | states |
|---|---|---|
| `L1.RunKeeps` | app/api/core/cache.py:157-271 | over every run of reads, writes, deletions and clears: the order of the store is the order of last use, each entry is the last write of its key, the size never exceeds `max_entries`, and keys inserted = live + evicted + expired + deleted + cleared |
| `L1.EvictionVictim` | app/api/core/cache.py:230-244 | after any run, the key a write pushes out is the least recently used of all keys then held, and it is the key just written exactly when there is no room for one entry |
| `L1.ReadFacts` | app/api/core/cache.py:175-210 | a read changes nothing that is stored, except that it drops the entry it finds expired |
| `L1.WriteFacts` | app/api/core/cache.py:212-244 | a write stores the new entry and otherwise only loses entries; with room for one, it never loses its own |
| `L1.WrittenIsRead` | app/api/core/cache.py:170-244 | over every run: an entry written and then left alone (not deleted, rewritten, or read when expired) is still there if at most `max_entries` keys were used since, its own included, and a read then says fresh, stale or nothing by its deadlines on the two clocks |
| `L1.ReadsAreCounted` | app/api/core/cache.py:175-210 | over every run the hit counter counts the reads that found something good, the miss counter the others, and expirations are among the misses |
| `L1.StampedIsDated` | app/api/core/cache.py:212-244 | the times of a written entry, given or defaulted, case by case |
| `L1.L1Cache.GetDetailed` | app/api/core/cache.py:175-210 | the fresh, stale and expired branches, in terms of the recency-ordered store and all counters |
| `L1.L1Cache.Get` | app/api/core/cache.py:170-173 | a value only for a fresh hit, with the same effect as the detailed read |
| `L1.L1Cache.Set` | app/api/core/cache.py:212-244 | stamps the entry with given or computed times, moves the key to the end, evicts the first when over the limit |
| `L1.L1Cache.Delete` | app/api/core/cache.py:246-251 | removes the key, tells whether it was there |
| `L1.L1Cache.DeletePattern` | app/api/core/cache.py:253-263 | removes exactly the keys the pattern matches and returns their number |
| `L1.L1Cache.Clear` | app/api/core/cache.py:265-267 | empties the store |
| `L1.L1Cache.Size` | app/api/core/cache.py:269-271 | the number of keys held |
| `Breaker.Characterisation` | app/api/core/cache.py:321-363 | over every history from a closed start: the count is the number of failures since the last success, and the circuit is closed exactly while it is below the threshold (at least 1) |
| `Breaker.CooldownHolds` | app/api/core/cache.py:321-363 | a failure that opens the circuit keeps every attempt out until the cooldown has passed, whatever is recorded short of a success, and whatever that was, the first attempt after it gets in |
| `Breaker.DisabledHolds` | app/api/core/cache.py:323-350 | a disabled circuit stays disabled and admits nothing until somebody records a success |
| `Breaker.RedisCircuitBreaker.CanAttempt` | app/api/core/cache.py:321-338 | admission by state and cooldown, with the move to half-open |
| `Breaker.RedisCircuitBreaker.RecordSuccess` | app/api/core/cache.py:340-345 | closes the circuit from any state and forgets the failures |
| `Breaker.RedisCircuitBreaker.RecordFailure` | app/api/core/cache.py:347-363 | counts unless disabled; opens at the threshold, or from half-open |
| `L2Client.OutageIsCheap` | app/api/core/cache.py:321-505 | threads share the client and at most w operations are in flight: over an outage of any length and any interleaving, threshold - 1 + w operations are let through and w more for each half-open phase, and those phases take at least a cooldown each |
| `L2Client.BoundIsTight` | app/api/core/cache.py:321-363 | for every threshold and w there is an outage that lets threshold - 1 + w operations through at once |
| `L2Client.EveryPhaseCounts` | app/api/core/cache.py:321-363 | and for every number n of half-open phases there is one that uses up w operations in each of them, threshold - 1 + w + n*w in all, in n cooldowns |
| `L2Client.UseIs` | app/api/core/cache.py:321-505 | a whole operation, from any state of the circuit: let through unless disabled or opened less than the cooldown ago; an answer is handed on and closes the circuit, anything else is one failure more and opens it at the threshold or when it was not closed |
| `L2Client.EventKeeps` | app/api/core/cache.py:321-505 | what each beginning and each failing operation keeps: let through = failed + in flight; closed while failures are below the threshold; a half-open phase waits for the cooldown after the one before, and whoever came through in it is still in flight |
| `L2Client.OutageKeeps` | app/api/core/cache.py:321-505 | and so over every outage |
| `L2Client.FailingUseIsFelt` | app/api/core/cache.py:453-505 | a whole failing operation acts on the breaker as its beginning and its failure, the events of an outage |
| `L2Client.UnconfiguredIsSilent` | app/api/core/cache.py:410-426 | an unconfigured client lets nothing through and never changes |
| `L2Client.L2RedisClient.GetClient` | app/api/core/cache.py:424-451 | the pool is set up once, on first need; failing to do so is a recorded failure |
| `L2Client.L2RedisClient.Get` | app/api/core/cache.py:453-471 | breaker, pool, one remote read, its outcome recorded; every failure looks like an absent key (one whole operation, nothing in between) |
| `L2Client.L2RedisClient.SetOrDelete` | app/api/core/cache.py:473-505 | the same for writes and deletions, which only report whether the remote side answered |
| `Flight.AcquireRelease` | app/api/core/cache.py:382-400 | releasing undoes acquiring; locks of different keys stay different; a key in use hands out its own lock |
| `Flight.SingleFlightManager.AcquireFlight` | app/api/core/cache.py:382-391 | the lock in use for the key with one more reference, or a new lock |
| `Flight.SingleFlightManager.ReleaseFlight` | app/api/core/cache.py:393-400 | one reference less, the slot gone with the last |
| `CacheKey.BuildCacheKey` | app/api/core/cache.py:597-637 | the appended and joined parts are the components of the request's identity, in order, with optional model, dataset and scope |
| `CacheKey.KeyText` | app/api/core/cache.py:597-637 | the key as one text: head, domain, resource, entity or "all", parameter digest or "none", then model and dataset, with colons and blanks replaced, and scope, where given |
| `CacheKey.ParseUndoesBuild` | app/api/core/cache.py:597-637 | for colon-free domain, resource and entity a parser recovers the identity from the key |
| `CacheKey.KeysAreInjective` | app/api/core/cache.py:597-637 | two such requests share a key if and only if they have the same identity (a falsy entity counts as "all") |
| `CacheKey.ColonCollides` | app/api/core/cache.py:612-637 | every request with a colon in its resource shares its key with another identity: the text after the colon moves into the entity |
| `KeyAmbiguity.KeyIsSharedIff` | app/api/core/cache.py:597-637 | for every request: its key belongs to a request of another identity too if and only if a colon in domain, resource or entity can change sides (any but a single one that ends the entity), or its components hold a second place where the parameter part could begin |
| `KeyAmbiguity.ColonFreeIsAlone` | app/api/core/cache.py:597-637 | a request without colons in domain, resource, entity and scope shares its key with no other identity at all |
| `KeyAmbiguity.SameKey` | app/api/core/cache.py:597-637 | two requests share a key if and only if their components, split at every colon, are the same |
| `CacheKey.PatternSelects` | app/api/core/cache.py:1139-1145 | the entity pattern matches a key if and only if its domain is the one given and some component after the resource, but the last, equals the entity |
| `CacheKey.EntityInvalidation` | app/api/core/cache.py:1139-1145 | every key of that domain and entity is selected, no key of another domain, and only keys with a component equal to the entity |
| `CacheKey.EntityNamedP` | app/api/core/cache.py:1139-1145 | an entity named "p", like the marker before the parameter digest (lines 619-624), selects every key of the domain |
| `CacheKey.StarSkips` | app/api/core/cache.py:1139-1145 | on any key, line breaks included, a star stands for exactly the stretches without a line break |
| `CacheKey.InvalidateEntity` | app/api/core/cache.py:1139-1145 | on the L1, for ids without pattern metacharacters: matching keys go, keys that end in a line break included, all other entries stay unchanged, the count is exact |
| `Lineage.EntriesAreWrites` | app/api/core/cache.py:734-1089 | in every reachable state of any number of workers, each L1 and L2 entry carries the value (or its JSON image) and the original three timestamps of one write of that very key, made by a `set` or by a producer run of the writing call |
| `Lineage.GetOrSetRefines` | app/api/core/cache.py:979-1089 | however L2 fails, a finished `get_or_set` produced its value itself, or returned a write of the key that was younger than its ttl (plus its stale window, for callers that accept that) when it looked, which was after the call began, or raised because its own producer raised |
| `Lineage.RaisingAddsNothing` | app/api/core/cache.py:1058-1089 | a call whose producer raised has written nothing to either tier |
| `Lineage.StepSound` | app/api/core/cache.py:734-1089 | the invariant behind these is kept by every action of every thread and of the adversary |
| `Lineage.RunSound` | app/api/core/cache.py:734-1089 | and so over every run |
| `WriteThrough.StoredWasWritten` | app/api/core/cache.py:734-1089 | over every run: a call that ends having stored its value (a successful `set`, a `get_or_set` returning what its producer gave, a completed refresh) sealed it at one moment, with creation, expiry and stale limit following from that moment, then made one remote write of it, which is in L2 right after if the store applied it, then put value and times into its worker's L1, where they are right after if there is room |
| `WriteThrough.SendStep` | app/api/core/cache.py:842-851 | the remote write: the envelope under its key if applied, nothing else |
| `ReadBack.WritesAreReadBack` | app/api/core/cache.py:808-1089 | over every run: until the key is lost, purged or written anew, a call of any worker that looks at L2 with an intact answer before creation + ttl (or, if writer and reader do stale, within the window after) never runs its producer, ends with the JSON image of the value written, and leaves it in that worker's L1 under the times of the write |
| `ReadBack.FoundIsServed` | app/api/core/cache.py:920-1089 | the same for a value found in either tier, at the first look or under the lock: it is what the call gives; a `get_or_set` that gives a stale one saw a refresh of the key under way or started one like itself |
| `ReadBack.RemoteLasts` | app/api/core/cache.py:808-851 | what L2 holds for a key changes by nothing but a loss, an applied write or an applied purge of that key |
| `ReadBack.GarbageIsPurged` | app/api/core/cache.py:818-822 | a call that gets an undecodable answer from L2 deletes the key there before it goes on |
| `Necessity.MissesAreReal` | app/api/core/cache.py:920-1089 | over every run: a `get` that misses looked into L1 and then L2 and found nothing good or got no proper answer; a `get_or_set` that runs its producer, returns its value or raises did so and then did it again under the lock, for fresh values |
| `LocalTier.LocalIsSequential` | app/api/core/cache.py:157-271 | however threads interleave, a worker's L1 is what one sequential run of its looks, fills and invalidations leaves: order of use, last writes, bounded size |
| `Coalescing.OneProducer` | app/api/core/cache.py:874-1089 | in a worker at most one thread, foreground or background, is past the lock of a key |
| `Coalescing.IdlePoolIsEmpty` | app/api/core/cache.py:374-400 | with nobody in flight the lock pool is empty and no lock is held |
| `Coalescing.OneRefresh` | app/api/core/cache.py:857-914 | at most one refresh per key is scheduled or running, and the key is marked exactly then |
| `Coalescing.Conservation` | app/api/core/cache.py:857-1089 | in every state: refreshes started = completed + failed + not yet counted; L2 misses = foreground producer runs + prevented stampedes + plain reads + undecided calls; producer calls = foreground + background runs |
| `Coalescing.QuiescentCounts` | app/api/core/cache.py:857-1089 | once all calls are done and no plain read came up empty: started = completed + failed, and misses = foreground producer runs + prevented |
| `Coalescing.StepKeeps` | app/api/core/cache.py:374-1089 | every action keeps: reference counts equal the threads in flight, they all hold the pool's lock, held locks match critical sections, marks match refreshes, counters balance |
| `Coalescing.RunKeeps` | app/api/core/cache.py:374-1089 | and so over every run |
| `Coalescing.StepProgresses` | app/api/core/cache.py:857-1089 | every step brings its thread, together with the refresh it may spawn, strictly closer to its end |
| `Coalescing.RunIsPaid` | app/api/core/cache.py:857-1089 | over a whole run, whatever threads and adversary do: steps made and distance still to go are paid for by the calls that began |
| `Coalescing.RunsAreShort` | app/api/core/cache.py:857-1089 | a run of any length and interleaving makes at most 34 thread steps for each call that begins, refreshes included |
| `Coalescing.SomebodyCanMove` | app/api/core/cache.py:874-1089 | no deadlock: while a call is unfinished, some thread can step |
| `SingleProduction.ProducerRunsOnce` | app/api/core/cache.py:979-1089 | any number of callers of one absent key, any interleaving among them and with calls of any kind for other keys on any worker, any L2 behaviour: if the key does not expire and, once in the worker's L1, is not evicted or removed, the producer returns at most once, exactly once as soon as anybody has finished, and every finished caller has its value |
| `SingleProduction.StepBefore` | app/api/core/cache.py:1002-1065 | until the first producer run returns, no caller can be past it and the key is in neither tier; the step that returns it starts the second phase |
| `SingleProduction.StepAfter` | app/api/core/cache.py:1040-1089 | from then on no caller reaches the producer and all serve that one value |
| `Lifecycle.TrailFacts` | app/api/core/decision_store.py:52-66 | on any trail of permitted edges a state from EXECUTING on was entered exactly once, as was each stage before it, and the last approve/reject entry was APPROVED |
| `Lifecycle.FewMovesLeft` | app/api/core/decision_store.py:52-66 | from EXECUTING on each edge lowers a measure by one: at most three transitions remain |
| `Lifecycle.ReachesIff` | app/api/core/decision_store.py:52-66 | one state can be reached from another by permitted edges if and only if work has not started in the first, or it has in both and the second is no earlier |
| `Lifecycle.EdgesAre` | app/api/core/decision_store.py:52-66 | the permitted edges are the fourteen listed |
| `DecisionStore.AuditExplainsState` | app/api/core/decision_store.py:82-308 | after every run, replaying a plan's audited moves from SIMULATED along permitted edges gives its stored state, its approval rows are exactly those its moves into APPROVED or REJECTED call for, and it was created once |
| `DecisionStore.ApprovalsTellRulings` | app/api/core/decision_store.py:249-264 | after every run a plan's approval rows match its moves into APPROVED and REJECTED one to one: Modified exactly with modifications, otherwise Approved for APPROVED and Rejected for REJECTED, by the same actor; so the last row tells the last ruling |
| `DecisionStore.EventsTellAudit` | app/api/core/decision_store.py:193-301 | after every run the events of an incident are, in order, those due for what the audit trail says of the plans made for it, kind by kind |
| `DecisionStore.CallWrites` | app/api/core/decision_store.py:114-308 | every row a successful call writes, with its contents, and that it writes no other |
| `DecisionStore.RepliesIff` | app/api/core/decision_store.py:114-308 | which calls are refused, and which fail, by the number of the statement that raises |
| `DecisionStore.RunKeeps` | app/api/core/decision_store.py:109-308 | the invariant over all tables behind it, for calls failing at any statement or at COMMIT |
| `DecisionStore.ReferencesAreUnique` | app/api/core/decision_store.py:109-156 | no two plans share a reference, although failed inserts use up ids |
| `DecisionStore.WorkWasApproved` | app/api/core/decision_store.py:212-308 | in every run a plan from EXECUTING on has APPROVED as its last approve/reject entry, and each stage was entered once |
| `DecisionStore.RefusedChangesNothing` | app/api/core/decision_store.py:212-308 | a refused or failing call, a failing audit write or COMMIT included, changes no table; a move happens if and only if the plan exists, the edge is permitted and neither a statement nor the COMMIT raises |
| `DecisionStore.Store.CreatePlan` | app/api/core/decision_store.py:114-209 | statement by statement on a transaction copy: plan, numbered actions, audit, incident event - or nothing but a used-up id |
| `DecisionStore.Store.TransitionPlan` | app/api/core/decision_store.py:212-308 | statement by statement: state, approval row, audit, incident event - or nothing |
| `DecisionsRouter.RunKeeps` | app/api/routers/decisions.py:88-315 | in every reachable state `status` is the lower-cased lifecycle state, and a decision has exactly one outcome row if it is MEASURED and none otherwise |
| `DecisionsRouter.StepIsPath` | app/api/routers/decisions.py:145-291 | every compound step is a non-empty path of permitted lifecycle edges |
| `DecisionsRouter.LifeIsATrail` | app/api/routers/decisions.py:95-291 | in every run the whole life of a decision, written out edge by edge, is one trail of permitted edges from the state it was created in to the state it is in, each step by a role that may take it |
| `DecisionsRouter.WorkWasApproved` | app/api/routers/decisions.py:95-279 | a COMPLETED or MEASURED decision was APPROVED earlier in its run by a role that may approve; no decision changes state more than three times |
| `DecisionsRouter.AuditTellsLife` | app/api/routers/decisions.py:88-315 | in every run without trouble at the audit inserts, the audit rows of a decision tell its whole life in order |
| `DecisionsRouter.RecordIs` | app/api/routers/decisions.py:88-134 | creation, role by role and spelling by spelling: who gets which state, and what is written |
| `DecisionsRouter.CallsAre` | app/api/routers/decisions.py:137-327 | review, execution and outcome, role by role and state by state: who is turned down with what, who gets through to which state, and what is written |
| `Transactions.ReplyIff` | app/api/core/db.py:64-91 | for any list of statements, some inside a swallowing block: the endpoint replies if and only if no exception escapes - of a statement outside the block with trouble of its own or after a refused one - and COMMIT does not raise; the reply is then true of the tables if and only if the server refused nothing, and otherwise nothing is stored |
| `Transactions.AllFacts` | app/api/core/db.py:71-85 | when an exception has escaped, when the transaction is aborted, and what it holds, after any statements |
| `DecisionsRouter.CommittedIff` | app/api/routers/decisions.py:104-127 | applied to the endpoints: a call past its guards answers exactly when its own writes and COMMIT go through, and has stored them exactly when the server did not refuse the audit row |
| `DecisionsRouter.AnswerIsTrueIff` | app/api/routers/decisions.py:115-134 | an answer names the state then in the tables if and only if the swallowed audit exception did not come from the server |
| `DecisionsRouter.InitialStates` | app/api/routers/decisions.py:94-102 | a decision starts open or APPROVED, the latter exactly when asked for (in either field, in any case) by a role that may approve |
| `DecisionsRouter.Router.RecordDecision` | app/api/routers/decisions.py:88-134 | creation with its role rule, and every way it can fail |
| `DecisionsRouter.Router.ReviewDecision` | app/api/routers/decisions.py:137-184 | approval or rejection of an open decision |
| `DecisionsRouter.Router.ExecuteDecision` | app/api/routers/decisions.py:187-226 | completion of an approved decision |
| `DecisionsRouter.Router.RecordOutcome` | app/api/routers/decisions.py:229-316 | the outcome row together with the move to MEASURED |
| `Registry.RunKeepsChampions` | app/api/routers/model_approval.py:94-487 | in every run each task has at most one champion if it did at the start, and a task that has one always has one |
| `Registry.ChampionsCounted` | app/api/routers/model_approval.py:154-487 | no call adds a champion beyond the first nor takes away the last, however many there were |
| `Registry.RollbackKeepsOneIff` | app/api/routers/model_approval.py:431-444 | a rollback that goes through leaves at most one champion if and only if the sitting one is not a different model with id 0 - which generated ids, starting at 1, exclude |
| `RegistryThreads.CommitsCounted` | app/api/routers/model_approval.py:94-487 | other requests may commit between a request's checks and its transaction: no commit adds a champion beyond the first, and one takes away a task's last if and only if it approves or rejects that very model |
| `RegistryThreads.AlwaysServedIff` | app/api/routers/model_approval.py:94-487 | over every interleaving, a task has at most one champion if it did, and one that has a champion never loses its last if and only if no approval or rejection commits on its only champion |
| `RegistryThreads.LateRejectionLeavesNone` | app/api/routers/model_approval.py:326-340 | an interleaving that loses it: a rejection checked before the model's promotion and committed after |
| `RegistryThreads.TogetherIsStep` | app/api/routers/model_approval.py:94-487 | with nothing in between, checks and transaction are the atomic request of the other theorems |
| `RegistryThreads.LogCountsCommits` | app/api/routers/model_approval.py:94-487 | over every interleaving the approvals table gains one row for each commit |
| `RegistryThreads.WaitingIff` | app/api/routers/model_approval.py:94-487 | a request waits from its checks to its one commit or drop |
| `Registry.LogExplainsStatus` | app/api/routers/model_approval.py:94-487 | over every run from a registry that its approvals table explains, such as an empty one, the table, replayed, gives the status of every model, the silently demoted ones included |
| `Registry.EmptyIsExplained` | scripts/migrate_all.py:276-323 | freshly created tables are such a start |
| `Registry.RunKeepsEarned` | app/api/routers/model_approval.py:94-487 | whatever leakage results models come in with: over every run from a registry of which it holds, a model that is approved, champion, retired or rolled back passed the leakage audit and an approval by super admin or the admin of its domain, named task by task, and the smoke test once it served - unless a super admin restored it by rollback |
| `Registry.StepKeepsEarned` | app/api/routers/model_approval.py:94-487 | the same from any registry in which it holds |
| `Registry.ChampionWasCrowned` | app/api/routers/model_approval.py:154-487 | over every run a champion that was none at the start was made one by a promotion of an entitled reviewer or a rollback of a super admin that went through, and its row tells when and, after a rollback, whom it replaced |
| `Registry.ApproveIff` | app/api/routers/model_approval.py:35-151 | an approval goes through if and only if the model is a challenger that passed its leakage audit and the role is super admin or the one admin of the task's domain, named task by task; every other reply has its exact condition, and the tables change by that status and row only |
| `Registry.PromoteIff` | app/api/routers/model_approval.py:35-317 | the same for promotions: an approved model, the same roles, the gate passed; the rows written |
| `Registry.RejectIff` | app/api/routers/model_approval.py:320-360 | the same for rejections |
| `Registry.RollbackIff` | app/api/routers/model_approval.py:363-487 | the same for rollbacks |
| `Registry.UncommittedIff` | app/api/routers/model_approval.py:125-145 | a transaction that raises or is rolled back unnoticed leaves the tables alone; the latter still answers success |
| `Registry.InsertIff` | app/api/routers/training.py:130-155 | training adds a challenger under a new id, with its audit result |
| `Registry.DeduplicationKeeps` | scripts/migrate_all.py:384-393 | per task the statement keeps exactly the lexicographic maximum of (promoted_at, id) among dated champions, and every undated one |
| `Registry.DeduplicationRetires` | scripts/migrate_all.py:384-393 | row by row: dated champions but the newest are retired, and nothing else changes |
| `Registry.DeduplicationSuffices` | scripts/migrate_all.py:384-398 | at most one champion per task remains if and only if none is undated, or one is and it is alone; a task never loses its last |
| `Registry.ModelRegistry.ApproveModel` | app/api/routers/model_approval.py:94-151 | every gate, then status and approvals row in one transaction |
| `Registry.ModelRegistry.PromoteModel` | app/api/routers/model_approval.py:154-317 | every gate, the noted smoke failure, then demotion, promotion and approvals row in one transaction |
| `Registry.ModelRegistry.RejectModel` | app/api/routers/model_approval.py:320-360 | rejection of anything but a champion |
| `Registry.ModelRegistry.RollbackModel` | app/api/routers/model_approval.py:363-487 | every gate, then demotion (of a non-zero id), restoration and approvals row in one transaction |
| `Registry.ModelRegistry.InsertChallenger` | app/api/routers/training.py:130-155 | training results enter as challengers only, with the leakage result PASS that the code writes |
| `Registry.ModelRegistry.Deduplicate` | scripts/migrate_all.py:385-393 | the UPDATE, row by row against the table as the statement found it |
| `Serving.PairMovesTogether` | app/api/core/ml_loader.py:236-349 | for calls that do not overlap: model and recorded version change only for the task asked about and only together after checksum, load and smoke test - or the version alone on first use; every failure leaves both unchanged |
| `Serving.RunKeepsBound` | app/api/core/ml_loader.py:121-349 | in every run a recorded version has a model loaded |
| `Serving.AnswerMatchesMemory` | app/api/core/ml_loader.py:214-368 | for calls that do not overlap: in every reachable state the answer carries the model and version then in memory, SYNCED exactly when that version is the authoritative one, UNAVAILABLE exactly for unknown tasks |
| `Serving.ReportedStringsAgreeIff` | app/api/core/ml_loader.py:352-368 | status and version strings agree if and only if neither of two corners, decided before the call, is met: a target "" that is or will be served, and a target "uninitialized" while nothing is nor will be |
| `Serving.ReportedStringsDisagree` | app/api/core/ml_loader.py:352-368 | both corners are reached by the first call of a process |
| `Serving.TruthIsKeptIff` | app/api/core/ml_loader.py:214-349 | a call keeps "the recorded version is what the model was trained as" if and only if it neither names a start-up model of another version nor swaps in an artifact of another version |
| `Serving.RunIsTruthfulIff` | app/api/core/ml_loader.py:214-349 | over every run of serving calls (no promotions), whatever the artifacts: the recorded version is true if and only if the call that installed the present pair did neither; a version is recorded if and only if there was such a call |
| `Serving.ChecksumMakesSwapsTrue` | app/api/core/ml_loader.py:281-307 | with a recorded checksum, a digest that determines the artifact and a registry entry made for the right one, a swap is to the right model |
| `Serving.StartUpModelIsMisnamed` | app/api/core/ml_loader.py:248-259 | a run from start-up that records a wrong version on first use |
| `Serving.StaleArtifactIsSwappedIn` | app/api/core/ml_loader.py:371-404 | a run from start-up that reloads the old artifact, found under the unversioned name, and records it as the new version |
| `Serving.SwapDecides` | app/api/core/ml_loader.py:338-340 | after a hot-reload the recorded version is true if and only if the artifact was of that version, whatever was wrong before |
| `ServingThreads.AnswerIsRightIff` | app/api/core/ml_loader.py:236-349 | reads and writes of the two cells as separate steps, over every interleaving of calls and promotions from a state without any: an answer's model is of the version given with it if and only if the last load before the call read the model (or its own) was of the version last recorded before it read that (or by itself), or there was only a start-up model, or no version is given; a SYNCED answer read its own target as version |
| `ServingThreads.MemoryAgreesIff` | app/api/core/ml_loader.py:236-349 | over the same interleavings: the model in memory is of the recorded version if and only if the last load and the last recording were of one version, and is stuck if and only if the last recording was of the champion and the model cell has another origin |
| `ServingThreads.StepTells` | app/api/core/ml_loader.py:236-349 | each step keeps what the two need: threads and cells hold what the history of loads and recordings says |
| `ServingThreads.AloneIsFaithful` | app/api/core/ml_loader.py:236-349 | in every run in which no two calls for the task overlap - ensure_active_model or promotion - each answer is what both cells hold at that moment, right or wrong (which of the two is AnswerIsRightIff's matter) |
| `ServingThreads.OverlapTearsAnswers` | app/api/core/ml_loader.py:236-246 | a run of two overlapping calls, one between its two writes, in which the other answers SYNCED with a model of another version |
| `ServingThreads.LateFailureTearsAnswers` | app/api/routers/model_approval.py:243-269 | a run without overlap that does the same: a promotion whose transaction raises after the reload, then a call for the champion |
| `ServingThreads.CrossedSwapsStick` | app/api/core/ml_loader.py:338-340 | two overlapping calls, no promotion, that write the model one way round and the version the other: all finished, memory stuck |
| `ServingThreads.PromotionSticksIff` | app/api/routers/model_approval.py:243-306 | a promotion or rollback leaves the champion's version recorded over another model if and only if it reloads a version that is not champion and ends, by an exception or an unnoticed rollback, without recording it, while the champion's is recorded |
| `ServingThreads.PromotionAgreesIff` | app/api/routers/model_approval.py:243-306 | memory, recorded version and registry agree after it if and only if it made its version champion (or it was) and recorded it (or it was) |
| `ServingThreads.OneUseSettlesIff` | app/api/core/ml_loader.py:236-349 | one call for the champion with a good artifact brings the three together if and only if no other model goes by the champion's version, or by none yet |
| `ServingThreads.UsesDoNotUnstick` | app/api/core/ml_loader.py:239-246 | no call for the champion enters or leaves that state |
| `ServingThreads.LatePromotionLasts` | app/api/routers/model_approval.py:243-269 | from agreement, after a promotion whose transaction raises, memory stays wrong through any number of calls for the champion if and only if the promoted version is another |
| `Serving.PairHasAnOrigin` | app/api/core/ml_loader.py:236-349 | in every run the served pair was put in place by one call, through every gate or as first use of the untouched start-up model |
| `Serving.TargetIsRecent` | app/api/core/ml_loader.py:129-349 | after any run a call goes by what the registry told the last call that asked about the task - itself, or one less than 120 seconds earlier with no invalidation since: the row's version and checksum, or, without a row, the served version, else "v1.0-champion", and no checksum; its answer and what is then in memory follow, case by case |
| `Serving.RegistryDecides` | app/api/core/ml_loader.py:139-349 | the same for one call in terms of its own query and artifact: which calls ask the registry; a checksum that is recorded and does not match, like a failed load or smoke test, is SYNC_FAILED with memory unchanged; a swap needs all gates |
| `Serving.CacheIsLastAsk` | app/api/core/ml_loader.py:129-211 | in every run the metadata remembered for a task is what the last call that asked was told |
| `Serving.ModelLoader.GetActiveModelMetadata` | app/api/core/ml_loader.py:139-211 | cached metadata within its lifetime, else the registry's row or the fallback, which is then cached |
| `Serving.ModelLoader.InvalidateModelMetadata` | app/api/core/ml_loader.py:129-136 | one task's metadata, or all of it, is forgotten |
| `Serving.ModelLoader.EnsureActiveModel` | app/api/core/ml_loader.py:214-349 | all cases in order, failures included, against the step function |
| `Trend.ExactVerdict` | app/api/routers/equipment.py:118-134 | for every series of at least four readings: the verdict compares 120 times the sum of increments weighted by j(n-j)/2 with the spread times n squared minus 1 |
| `Trend.Numerator` | app/api/routers/equipment.py:126 | the least-squares numerator is that weighted sum |
| `Trend.Denominator` | app/api/routers/equipment.py:127 | the denominator is n(n^2-1)/12 |
| `Trend.RisingIsSeen` | app/api/routers/equipment.py:118-134 | every weakly increasing, non-constant series of 4 to 59 readings is called rising |
| `Trend.FallingIsSeen` | app/api/routers/equipment.py:118-134 | every weakly decreasing one is called falling |
| `Trend.NegateVerdict` | app/api/routers/equipment.py:118-134 | negating all readings swaps rising and falling, for every series |
| `Trend.StepAtEndVerdict` | app/api/routers/equipment.py:131-134 | 59 is tight: one step at the end of n readings is reported if and only if n is at most 59 |
| `Trend.WindowTrend` | app/api/routers/equipment.py:337-359 | on the 30-row window, missing readings dropped, monotone features with four readings always get their trend |
| `Trend.MissingIsDropped` | app/api/routers/equipment.py:337-359 | a missing reading makes no difference wherever it is; others are taken as they are |
| `Evidence.Assess` | app/api/core/evidence.py:286-342 | the grade is the lowest of the threshold grade and all triggered caps (UNAVAILABLE when nothing was measured); the notes are the caps that lowered it, none exactly when no cap did |
| `Evidence.Cap` | app/api/core/evidence.py:314-318 | the closure lowers the grade and notes why, or does nothing |
| `Evidence.GradeIsUnique` | app/api/core/evidence.py:286-342 | that description, in which no order of caps appears, determines the grade |
| `Evidence.TryingGivesTheGrade` | app/api/core/evidence.py:312-338 | trying the caps in the order of the code reaches it |
| `Evidence.LimitersDescend` | app/api/core/evidence.py:312-338 | every note lowered the grade strictly, so there are at most two |
| `Evidence.OrderDoesNotMatter` | app/api/core/evidence.py:286-342 | reordering factors with distinct keys changes neither score, grade nor notes |
| `Evidence.GradeMonotone` | app/api/core/evidence.py:286-342 | raising any scores, keys and non-negative weights unchanged, never lowers the grade |
| `Evidence.MoreSupportNeverHurts` | app/api/core/evidence.py:114-342 | from raw measurements: fresher data, more inputs, a better serving state, more cases, more constraints checked never give a lower grade |
| `Evidence.GradeFromMeasurements` | app/api/core/evidence.py:93-342 | the exact grade from raw measurements: HIGH if and only if the model may be the champion, data are under two hours old, all constraints checked, three quarters of the inputs there, and - unless the champion has live data - past cases and inputs make up for it in stated amounts; UNAVAILABLE and LOW by points and caps |
| `Evidence.NotesAre` | app/api/core/evidence.py:312-338 | the notes, case by case |
| `Gateway.NoReplay` | app/engine/api/gateway_auth.py:37-128 | with a clock that never runs back, a request not stamped ahead of it is accepted at most once in any run, although nonces are dropped |
| `Gateway.ReplayAcceptedIff` | app/engine/api/gateway_auth.py:48-116 | the next presentation of an accepted request is accepted if and only if it is in its window and a sweep of a full table more than 300 seconds after the acceptance came between |
| `Gateway.Remembers` | app/engine/api/gateway_auth.py:48-128 | an accepted nonce is remembered with its time exactly until such a sweep |
| `Gateway.AheadIsReplayed` | app/engine/api/gateway_auth.py:48-128 | a run with a request stamped 300 seconds ahead that is accepted twice |
| `Gateway.TableStaysSmall` | app/engine/api/gateway_auth.py:48-128 | after an acceptance the table has at most 4096 nonces or none older than the window |
| `Gateway.AcceptedIff` | app/engine/api/gateway_auth.py:86-128 | with a secret configured a request is accepted if and only if it is complete, its timestamp is a number within 300 seconds of the clock, its nonce is not remembered and its signature is genuine; each refusal answers the first fault in that order |
| `Gateway.TableIsSigned` | app/engine/api/gateway_auth.py:86-128 | after any run each nonce in the table is that of a genuinely signed request in its window, accepted at the time noted |
| `Gateway.ForgeriesLeaveNoTrace` | app/engine/api/gateway_auth.py:118-128 | a request that is not genuine adds nothing to the table and removes nothing a sweep would keep |
| `Gateway.TableAfter` | app/engine/api/gateway_auth.py:48-128 | what a request does to the table, nonce by nonce |
| `GatewayThreads.AcceptedTwiceIff` | app/engine/api/gateway_auth.py:114-128 | with other requests handled while a body is awaited: two copies of a signed request in its window both get through if and only if the second check comes before the first insertion of the nonce |
| `GatewayThreads.PassesIff` | app/engine/api/gateway_auth.py:110-128 | such a request passes its checks if and only if its nonce has not been inserted before |
| `GatewayThreads.NonceIsThereIff` | app/engine/api/gateway_auth.py:48-53 | in every interleaving, during the window of a request its nonce is in the table exactly once inserted |
| `GatewayThreads.TogetherIsHandle` | app/engine/api/gateway_auth.py:114-128 | a check and an insertion with nothing in between are the atomic request of the other theorems |
| `GatewayThreads.OnlySignedWait` | app/engine/api/gateway_auth.py:114-128 | in every interleaving whatever waits to be inserted or is in the table comes from the check of a genuinely signed request in its window |
| `Gateway.GatewayGuard.Prune` | app/engine/api/gateway_auth.py:48-53 | a full table loses exactly the nonces older than the window |
| `Gateway.GatewayGuard.RequireSignature` | app/engine/api/gateway_auth.py:86-128 | the checks in order and their effect on the table |
| `Memo.RunKeeps` | app/api/core/memo.py:48-82 | in every interleaving of calls, clears and time: the store stays within `maxsize`, entries and results come from runs of the function on the same arguments, and nothing is raised but the function's own exceptions, a TypeError exactly for unhashable arguments, and the store's if `maxsize` is zero or less |
| `Memo.ReturnedIsRecent` | app/api/core/memo.py:51-71 | each returned value comes from a finished run of the function on the same arguments begun less than `ttl` before the caller's own clock reading (for a `ttl` of zero or less: or not before it) |
| `Memo.SizeLimitRaisesIff` | app/api/core/memo.py:63-69 | a call that reaches the store raises there if and only if `maxsize` is zero or less |
| `Memo.StoredIsFound` | app/api/core/memo.py:51-71 | in every interleaving a stored value is given, without running the function, to every later call for the same arguments that reads the clock less than `ttl` after the storing call did - unless the store was cleared, stored to for these arguments, or calls no older stored for `maxsize` - 1 other arguments |
| `Memo.LookUpIff` | app/api/core/memo.py:56-59 | a look-up ends the call if and only if an entry younger than `ttl` is there, with its value |
| `Memo.StepKeeps` | app/api/core/memo.py:48-82 | the invariant behind these, for every single step |
| `Memo.TtlCache.LookUp` | app/api/core/memo.py:56-59 | for hashable arguments: a hit exactly for an entry younger than `ttl` |
| `Memo.TtlCache.Oldest` | app/api/core/memo.py:67 | an entry no other is older than |
| `Memo.TtlCache.Put` | app/api/core/memo.py:63-71 | the oldest entry goes when the store is full, the new one comes, and an empty full store raises |
| `Memo.TtlCache.CacheClear` | app/api/core/memo.py:73-75 | the store is emptied |

## Left out

- SHA-256, HMAC (RFC 2104), JSON, zlib (RFC 1950) and base64 (section 4 of RFC 4648): a parameter
  digest, a signature's validity and a value's JSON image are given; compressed payloads over
  10 MB, which decode refuses, are remote misses.
- The breaker inside the step system: the adversary may refuse any remote operation at any time,
  which covers every behaviour of the breaker, itself modelled separately.
- Tiered.Move: the manager's methods are program counters of a step function rather than methods of a
  class, because what matters about them is how they interleave; they use the L1 and lock-pool
  functions that the classes are proved against.
- The switch that turns the cache off, and an unconfigured remote store: the first calls the
  producer directly, the second is a store that is always down.
- Envelopes that decode but carry no numeric timestamps, exceptions outside `Exception`, and a
  refresh executor that refuses work.
- The remote store's expiry time and its glob patterns for bulk deletion: entries of the remote
  store may vanish at any step, and pattern deletion is modelled on the L1.
- A missing Redis library, which counts as an unconfigured store here; error counters of the client;
  the SCAN iterator.
- Latency records, percentiles, `health()`, `stats()`, logging and messages.
- Different clocks: one clock serves all workers, and monotonic and wall time agree.
- SingleProduction.ProducerRunsOnce: one worker's callers of the key, because another worker runs its
  own producer by design; calls for other keys are unrestricted.
- CacheKey.InvalidateEntity: one worker's L1; ids with pattern metacharacters, which the code hands
  to a regular expression, and the scan of the remote store are not covered.
- DecisionsRouter.Router.RecordOutcome: does not compute delta and effectiveness, which are rounded
  floating-point figures without influence on the state.
- DecisionsRouter.InitialStates: letter case is mapped for ASCII letters only.
- Payload columns of plans, actions, decisions and models that no rule reads; `allowed_from`,
  which only sorts names for an error text; list and detail queries.
- DecisionsRouter.Router.RecordDecision: an insert that reaches the server is taken to draw an id,
  also when it is refused.
- Two plans created at once that read the same maximal id: the second insert fails on the
  reference, which is one of the failing calls of the model.
- Registry.RunKeepsChampions: requests are atomic in this module; RegistryThreads lets other
  requests commit between a request's checks and its transaction.
- Registry.RollbackKeepsOneIff: the partial unique index on champions, which would make the rollback
  raise instead, is outside the model.
- RegistryThreads.CommitsCounted: a transaction's champion query and its updates are one step. Where two
  transactions overlap, that index makes the later one raise, and the request is dropped.
- A COMMIT that raises is taken to have stored nothing; one that is carried out while its
  acknowledgement is lost is not modelled.
- Serving.PairMovesTogether: calls of `ensure_active_model` are atomic in this module, while the code
  reads and writes the two cells without a lock; overlapping calls, and promotions, which write the
  same cells, are the subject of ServingThreads.
- Serving.AnswerMatchesMemory: the same.
- Where an artifact is found (recorded path, naming conventions, download) and how a smoke
  test runs: a call is given what they find.
- Gateway.NoReplay: requests are handled one at a time; with the pause in which the body is read,
  GatewayThreads.AcceptedTwiceIff holds instead.
- Evidence wording: labels and detail sentences; the serving status arrives classified (synced, not synced, unreported, none).
- The A* routing and scenario packages, authentication, report assembly and the web layer.
