# Verified models of the vLLM HCU runtime

This project models the parts of the vLLM HCU plugin whose correctness depends on all inputs, all
interleavings or all reachable states, and proves what they promise for every one of them.
`dafny verify dfyconfig.toml` checks all of it.

| modules | part of the system |
|---|---|
| `RouterLayout`, `RouterRegistry`, `RouterPairing`, `RouterRun`, `RouterThreads`, `RouterRequests`, `RouterDispatch`, `RouterService` | the prefill/decode router: registration, pairing, communicator ranks, request matching, dispatch |
| `PlanCache` | the Step5 FP8 plan cache used by any number of host threads |
| `Eplb`, `EplbAsync`, `RankImbalance` | expert-parallel load balancing: the collectives of all ranks, both modes against a reading call by call, and the gain test |
| `CheckpointAudit`, `JsonNesting` | the checkpoint auditor: the sweep over tensor ranges and the nesting scanner |
| `ForwardContext` | the DeepEP phase choice of the data-parallel ranks |
| `ExpertPlacement`, `QkvSplit` | transformations of the weight stream |
| `SwaFused`, `Fp8Einsum`, `ScaleRounding` | kernels that must equal a simple reference |
| `Common`, `Arithmetic` | shared vocabulary |

How the systems are modelled:

* **Router.** The listener, the pairing thread and the dispatcher take atomic steps, one per critical
  section; messages to instances become a log. A pair is keyed by the two addresses. `RouterThreads`,
  `RouterDispatch` and the class in `RouterRequests` are the loops and in-place updates of the threads,
  proved to compute what the state machines say; `RouterService` joins registration, pairing, reports and
  dispatch into one machine. An instance's messages may come in any order and
  any number, and a coordinate may register again under another address, but they keep to the
  instance's own layout: its sizes, its coordinates, and the addresses its members own.
* **Plan cache.** A transition system with a cache mutex, a mutex per plan and one program counter per
  thread; every foreign call may fail. The log records initializations, matmuls, publications
  and returns.
* **Load balancing.** Ranks are not in lockstep: each takes local actions at its own speed and blocks in a
  collective until all ranks are in the same one. Dummy flags, load windows and the moments at which
  the worker of a rank hands over a layer are arbitrary. The policy, the reduction and the gain test
  are arbitrary functions of reduced data. The history of a rank is kept: what it entered, what the reductions
  gave and what its questions were answered. Assumed are that the policy keeps the number of layers, and
  of each worker that it hands over layers in order, each with the row of the plan made from the
  snapshot taken at the start, in buffers that match the weights and with metadata of that layer.
* **Kernels.** A grid is a set of programs executed in any order. Floats are exact reals, and rounding or
  quantization are function parameters.

Results that differ from what one might expect:

* The router takes an instance for complete when the number of registered coordinates equals the world size.
  A stray coordinate passes that test while a member is missing; for sizes that are not negative,
  completeness is equivalent to all coordinates being in range.
* A decode instance has one rank table, rewritten by every pairing. It holds the ranks of a pair exactly when
  the last pairing was with a prefill instance of the same number of ranks; a mapping of the dispatcher
  keeps the ranks of the last pairing before it was made, and the dispatcher does not ask whether the
  pair is initialized (the HTTP handler does, before it forwards a request). One run shows table and mapping of a pair each wrong while the other is right.
* The listener's assertion on request reports fails exactly when a report after the first about a request does
  not leave both sides reported with dp ranks that are not negative.
* A placed layer is bound to select the same experts in the same order exactly when no tie of the biased scores
  reaches the last value selected, and bound to give the same output exactly when no expert left out ties
  with the last one selected: ties among the selected ones only reorder a sum.
* The QKV loader accepts some weights whose kv heads do not divide the attention heads, and cuts them away from
  the section boundaries; with kv heads that divide, the cuts always fall on them.

Two bounds in the kernels turn out to be safe. The fused kernel writes every query head exactly
when the group size divides the number of heads, which the caller requires. The clamp of the scale exponent to
1..254 never acts on a finite block, and since 448 is below 512 the quotient of a float32 magnitude, rounded to
nearest, is never rounded down to a power of two, so no scaled value exceeds 448.

## Model

| member | source | states |
|---|---|---|
| `RouterRegistry.ReadyIsComplete` | examples/disaggregated_serving_du_swift_xpyd/disagg_proxy_du_swift_xpyd_dp.py:54-70 | when the count test passes and all registered coordinates are in range, no coordinate is missing and all sizes are positive, whatever integers were sent |
| `RouterRegistry.ReadyIffInRange` | examples/disaggregated_serving_du_swift_xpyd/disagg_proxy_du_swift_xpyd_dp.py:54-70 | for sizes that are not negative, passing the count test makes completeness equivalent to all coordinates in range |
| `RouterRegistry.StrayLooksReady` | examples/disaggregated_serving_du_swift_xpyd/disagg_proxy_du_swift_xpyd_dp.py:106-139 | one out-of-range registration makes an instance with a missing member pending |
| `RouterRegistry.AppendedIsReady` | examples/disaggregated_serving_du_swift_xpyd/disagg_proxy_du_swift_xpyd_dp.py:128-157 | for every message the instance is appended exactly when it passes the count test; the check skipped for an init from an unknown address would fail |
| `RouterRegistry.AppendedAtLast` | examples/disaggregated_serving_du_swift_xpyd/disagg_proxy_du_swift_xpyd_dp.py:106-157 | for every order of one init and one registration per coordinate, interleaved with any other messages, the instance is appended at a message exactly when it is its last one and the sizes are positive |
| `RouterRegistry.AppendedOnce` | examples/disaggregated_serving_du_swift_xpyd/disagg_proxy_du_swift_xpyd_dp.py:106-157 | in such a stream exactly one message appends the instance |
| `RouterRegistry.LastMessageCounts` | examples/disaggregated_serving_du_swift_xpyd/disagg_proxy_du_swift_xpyd_dp.py:106-157 | for every stream of messages, repeated ones included, a coordinate has an address exactly when it was registered, and that is the address registered last; the sizes are those sent last |
| `RouterLayout.MemberOfRank` | examples/disaggregated_serving_du_swift_xpyd/disagg_proxy_du_swift_xpyd_dp.py:354-371 | each coordinate has a number below the world size that determines it |
| `RouterLayout.RankOfMember` | examples/disaggregated_serving_du_swift_xpyd/disagg_proxy_du_swift_xpyd_dp.py:354-371 | each number below the world size belongs to a coordinate in range, so the numbering is a bijection |
| `RouterLayout.RanksOrdered` | examples/disaggregated_serving_du_swift_xpyd/disagg_proxy_du_swift_xpyd_dp.py:354-371 | the numbering is ordered by dp, then pp, then tp |
| `RouterThreads.InitMembers` | examples/disaggregated_serving_du_swift_xpyd/disagg_proxy_du_swift_xpyd_dp.py:354-372 | the triple loop sends one message per number from the base on, to the member with that number by division and remainder, and its table holds exactly those ranks |
| `RouterThreads.InitPair` | examples/disaggregated_serving_du_swift_xpyd/disagg_proxy_du_swift_xpyd_dp.py:347-392 | prefill members are numbered before decode members, with one id and one world size |
| `RouterThreads.RouterState.UniqueIdDispatch` | examples/disaggregated_serving_du_swift_xpyd/disagg_proxy_du_swift_xpyd_dp.py:332-394 | a known pair is left alone; a new one gets the announcement, both rank tables and its id |
| `RouterThreads.RouterState.Hear` | examples/disaggregated_serving_du_swift_xpyd/disagg_proxy_du_swift_xpyd_dp.py:106-157 | one registration or init message updates the tables and the pending list as the state machine says |
| `RouterThreads.RouterState.PairInit` | examples/disaggregated_serving_du_swift_xpyd/disagg_proxy_du_swift_xpyd_dp.py:397-425 | the nested loops leave both pending lists empty and pair exactly the couples of the drain, in order |
| `RouterThreads.DrainSplit` | examples/disaggregated_serving_du_swift_xpyd/disagg_proxy_du_swift_xpyd_dp.py:412-425 | taking pending instances one by one equals pairing all listed couples at once |
| `RouterPairing.EveryReadyPairIsInitialized` | examples/disaggregated_serving_du_swift_xpyd/disagg_proxy_du_swift_xpyd_dp.py:397-425 | in every reachable state the initialized pairs are exactly ready prefill times ready decode; the next drain reads no missing entry, empties both lists and pairs all pending instances |
| `RouterPairing.CommInitOncePerPair` | examples/disaggregated_serving_du_swift_xpyd/disagg_proxy_du_swift_xpyd_dp.py:332-394 | over every run, with any duplicates in the lists, the messages of a pair are one per rank 0 to world size minus one, prefill before decode, with one world size and an id no other pair has; a pair not there was sent none |
| `RouterPairing.CommInitOncePerMember` | examples/disaggregated_serving_du_swift_xpyd/disagg_proxy_du_swift_xpyd_dp.py:354-392 | every member of an initialized pair was sent exactly one `comm_init` over the whole run, with the rank of its coordinate |
| `RouterPairing.MappingHoldsPairRanksIff` | examples/disaggregated_serving_du_swift_xpyd/disagg_proxy_du_swift_xpyd_dp.py:241-256 | in every reachable state a mapping, cached or fresh, carries the ranks of its pair exactly when the prefill instance the decode instance was last paired with, as the mapping was made, has as many ranks as the pair's |
| `RouterPairing.RemoteRanksAreSentRanks` | examples/disaggregated_serving_du_swift_xpyd/disagg_proxy_du_swift_xpyd_dp.py:241-256 | for an initialized pair, when all prefill instances paired with the decode instance have the same number of ranks, every mapping used by the dispatcher, cached or fresh, carries the ranks sent for that pair |
| `RouterPairing.TableHoldsPairRanksIff` | examples/disaggregated_serving_du_swift_xpyd/disagg_proxy_du_swift_xpyd_dp.py:374-391 | in every reachable state the decode rank table holds a pair's ranks exactly when the last partner had the same number of ranks |
| `RouterRun.LaterPairingOverwrites` | examples/disaggregated_serving_du_swift_xpyd/disagg_proxy_du_swift_xpyd_dp.py:241-256 | a run from the start in which, of two initialized pairs with one decode instance, the table is wrong for the first and right for the later one, while the cached mappings are right for the first and wrong for the later one, whose mapping was made before its pairing |
| `RouterRun.FirstRequestMisled` | examples/disaggregated_serving_du_swift_xpyd/disagg_proxy_du_swift_xpyd_dp.py:241-256 | a run without any earlier dispatch in which the first request for an initialized pair gets a new mapping with wrong ranks, because the decode instance has been paired with a larger prefill instance since |
| `RouterPairing.DispatchSucceedsIff` | examples/disaggregated_serving_du_swift_xpyd/disagg_proxy_du_swift_xpyd_dp.py:221-256 | in every reachable state a mapping is found exactly when both instances are known, the decode instance has one pp stage and, unless its tp size leaves nothing to map, the prefill tp size is not zero, the decode instance is paired with some prefill instance and the dp rank is in range; the pair itself need not be initialized |
| `RouterPairing.PicksPartition` | examples/disaggregated_serving_du_swift_xpyd/disagg_proxy_du_swift_xpyd_dp.py:245-249 | the destinations of a prefill tp rank are the decode tp ranks of its residue, ascending |
| `RouterPairing.PicksStrided` | examples/disaggregated_serving_du_swift_xpyd/disagg_proxy_du_swift_xpyd_dp.py:245-249 | with m prefill tp ranks, the destinations of rank t are exactly the decode tp ranks t, t + m, t + 2m and so on, in that order |
| `RouterPairing.PicksBalanced` | examples/disaggregated_serving_du_swift_xpyd/disagg_proxy_du_swift_xpyd_dp.py:245-249 | hence their number in closed form, and the numbers of any two prefill tp ranks differ by at most one |
| `RouterPairing.ResidueIsRemainder` | examples/disaggregated_serving_du_swift_xpyd/disagg_proxy_du_swift_xpyd_dp.py:246-246 | for a divisor of either sign the remainder lies between zero and the divisor and differs from the dividend by a multiple of it |
| `RouterPairing.ActiveHasPicks` | examples/disaggregated_serving_du_swift_xpyd/disagg_proxy_du_swift_xpyd_dp.py:245-252 | a prefill tp rank is active exactly when it has a destination |
| `RouterPairing.ActiveBelow` | examples/disaggregated_serving_du_swift_xpyd/disagg_proxy_du_swift_xpyd_dp.py:245-252 | with a positive prefill tp size the active ranks are exactly those below both tp sizes |
| `RouterDispatch.BuildMapping` | examples/disaggregated_serving_du_swift_xpyd/disagg_proxy_du_swift_xpyd_dp.py:241-252 | the loop over decode tp ranks gives, per residue, addresses and communicator ranks of the same members in the same order; for a positive prefill tp size entry a of rank t is the address and the rank of decode tp rank t + a * m, and their number is the closed form |
| `RouterDispatch.FindMapping` | examples/disaggregated_serving_du_swift_xpyd/disagg_proxy_du_swift_xpyd_dp.py:224-256 | looks both instances up, requires one pp stage, and takes the cached mapping or makes and keeps one; fails exactly where the state machine says |
| `RouterDispatch.DestinationsPartition` | examples/disaggregated_serving_du_swift_xpyd/disagg_proxy_du_swift_xpyd_dp.py:245-249 | every decode tp rank is a destination of exactly one prefill tp rank, once, and that one is active |
| `RouterDispatch.DispatchToP` | examples/disaggregated_serving_du_swift_xpyd/disagg_proxy_du_swift_xpyd_dp.py:258-288 | fails exactly when an address of the group is missing; what is sent is right and at most one per rank, and unless it fails each (pp, tp) rank of the chosen prefill dp group gets exactly one command, a transfer with its destinations or the word that there is none, for any order of the active set |
| `RouterDispatch.SendingSucceedsIff` | examples/disaggregated_serving_du_swift_xpyd/disagg_proxy_du_swift_xpyd_dp.py:258-288 | in every reachable state, for an initialized pair with a mapping, no address is missing exactly when the prefill dp rank is in range |
| `RouterDispatch.ReachableDispatch` | examples/disaggregated_serving_du_swift_xpyd/disagg_proxy_du_swift_xpyd_dp.py:221-288 | in every reachable state, for an initialized pair with a mapping and a prefill dp rank in range, all commands name addresses of the right members with the ranks sent to them exactly when the last partner, as the mapping was made, had as many ranks |
| `RouterRequests.RequestTable.Hear` | examples/disaggregated_serving_du_swift_xpyd/disagg_proxy_du_swift_xpyd_dp.py:163-185 | a report fills the shared record and queues the request when both sides are known, or fails the assertion |
| `RouterRequests.RequestTable.Take` | examples/disaggregated_serving_du_swift_xpyd/disagg_proxy_du_swift_xpyd_dp.py:290-298 | the newest queued request is dispatched with the record as it is then |
| `RouterRequests.RequestsCounted` | examples/disaggregated_serving_du_swift_xpyd/disagg_proxy_du_swift_xpyd_dp.py:163-185 | in every run without a failure a request is queued or dispatched once per report after its first, and its record holds what each side said last |
| `RouterRequests.FailsIff` | examples/disaggregated_serving_du_swift_xpyd/disagg_proxy_du_swift_xpyd_dp.py:168-176 | for every run the assertion holds throughout exactly when every report after the first about a request leaves both sides reported with dp ranks that are not negative |
| `RouterRequests.FailingRuns` | examples/disaggregated_serving_du_swift_xpyd/disagg_proxy_du_swift_xpyd_dp.py:168-176 | one side reporting twice fails it, and so does a negative dp rank with both sides reported |
| `RouterRequests.OnceFailsIff` | examples/disaggregated_serving_du_swift_xpyd/disagg_proxy_du_swift_xpyd_dp.py:168-176 | with at most one report per side it holds exactly when no request with both reports has a negative dp rank |
| `RouterRequests.RequestsDispatchedOnce` | examples/disaggregated_serving_du_swift_xpyd/disagg_proxy_du_swift_xpyd_dp.py:163-185 | for every arrival order with at most one report per side, the listener fails only over a negative dp rank; until then a request is queued or dispatched exactly once when both sides reported, and what is dispatched carries both sides' data |
| `RouterRequests.DispatchedAsReported` | examples/disaggregated_serving_du_swift_xpyd/disagg_proxy_du_swift_xpyd_dp.py:163-185 | a dispatched request carries, for each side, the address and dp rank that this side itself reported |
| `RouterRequests.NewestFirst` | examples/disaggregated_serving_du_swift_xpyd/disagg_proxy_du_swift_xpyd_dp.py:290-298 | in every run the dispatcher takes, of all queued requests, the one whose last report came last |
| `RouterService.StepKeeps` | examples/disaggregated_serving_du_swift_xpyd/disagg_proxy_du_swift_xpyd_dp.py:290-298 | every step of the whole router, registration, drain, report or served request, keeps its invariant: while the dispatcher runs, a request not dispatched has no commands and one dispatched once has exactly the commands of its record |
| `RouterService.MatchedRequestsServed` | examples/disaggregated_serving_du_swift_xpyd/disagg_proxy_du_swift_xpyd_dp.py:163-298 | over every run in which each side reports a request at most once, while both threads run and the queue is empty, every matched request of an initialized pair has given each (pp, tp) rank of its prefill dp group exactly one command, with destinations by residue, and with equal prefill counts the ranks sent for the pair |
| `RouterService.DispatcherSurvivesIff` | examples/disaggregated_serving_du_swift_xpyd/disagg_proxy_du_swift_xpyd_dp.py:221-298 | for an initialized pair the dispatcher thread outlives a request exactly when the decode instance has one pp stage and both dp ranks are in range |
| `RouterService.ServingIsPossible` | examples/disaggregated_serving_du_swift_xpyd/disagg_proxy_du_swift_xpyd_dp.py:290-298 | while the dispatcher runs, a queued request can be taken, and its commands sent in some order |
| `PlanCache.CacheIsSafe` | vllm_hcu/csrc/step5_fp8_dense.cpp:175-210 | in every interleaving each published plan is initialized for its key and was enqueued once before publication, at most one plan is published per key and per plan, and every matmul ran with its own call's scales on a plan for its own key |
| `PlanCache.MatmulsFitTensors` | vllm_hcu/csrc/step5_fp8_dense.cpp:70-131 | in every interleaving, every matmul runs on the device of its own input, with the layouts given by the rows and columns of its own weight, input and output, with its own algorithm and scales, and only for tensors that fit together |
| `PlanCache.SharedPlansFit` | vllm_hcu/csrc/step5_fp8_dense.cpp:175-210 | two calls share a plan only if device, both row counts, the column count and the algorithm agree, and only a call that may initialize publishes |
| `PlanCache.ColdCallSucceeds` | vllm_hcu/csrc/step5_fp8_dense.cpp:146-210 | for all tensors that pass validation, a lone call that may initialize, without a foreign failure, initializes, runs and publishes its plan and returns it |
| `PlanCache.CallsAreAccounted` | vllm_hcu/csrc/step5_fp8_dense.cpp:175-210 | every begun call is running or returned once; it enqueued one matmul if it succeeded and none if it failed, and a failed call published nothing |
| `PlanCache.StructureKept` | vllm_hcu/csrc/step5_fp8_dense.cpp:118-131 | every step keeps the agreement of both kinds of mutex with the threads, initialized published plans, and unseen unpublished plans |
| `PlanCache.HistoryKept` | vllm_hcu/csrc/step5_fp8_dense.cpp:175-210 | every step keeps the counts of initializations, matmuls, publications and returns |
| `PlanCache.HoldersNeverWait` | vllm_hcu/csrc/step5_fp8_dense.cpp:118-131 | a thread that holds a mutex can always take its next step |
| `PlanCache.NoDeadlock` | vllm_hcu/csrc/step5_fp8_dense.cpp:175-210 | while a call is unfinished some unfinished call can move |
| `PlanCache.CallsFinish` | vllm_hcu/csrc/step5_fp8_dense.cpp:175-210 | without new calls every schedule is bounded by the work left |
| `PlanCache.SelectAlgorithm` | vllm_hcu/csrc/step5_fp8_dense.cpp:97-115 | initialization succeeds exactly when one candidate matches and it needs no workspace, and picks that one |
| `Eplb.RanksAgree` | vllm_hcu/distributed/eplb_runtime.py:131-241 | in every run, with arbitrary dummy flags, loads and worker timing, any two ranks that wait in a collective or have ended agree on the collective, step counter, flags, maps and everything entered so far |
| `Eplb.TracesCompare` | vllm_hcu/distributed/eplb_runtime.py:131-241 | at any moment the sequence of collectives entered by one rank is a prefix of the other's |
| `Eplb.NeverHangs` | vllm_hcu/distributed/eplb_runtime.py:214-241 | in every reachable state some rank can act, or all ranks wait in one collective, which completes, or all calls have returned everywhere; under the assumption on the worker no rank has raised |
| `Eplb.SchedulesEnd` | vllm_hcu/distributed/eplb_runtime.py:106-241 | the events that move a rank are bounded by ranks times calls times a constant of the models, so every run of moves ends |
| `Eplb.RearrangementsInOrder` | vllm_hcu/distributed/eplb_runtime.py:228-239 | in async mode a new rearrangement starts only after every layer of every model was committed once and in order since the previous start |
| `Eplb.RearrangesEveryInterval` | vllm_hcu/distributed/eplb_runtime.py:208-239 | in sync mode, between any two calls and whatever steps were dummies, a rank has entered exactly steps divided by interval rearrangements and its counter is the remainder; profile runs count for neither |
| `Eplb.SyncModeFollowsCalls` | vllm_hcu/distributed/eplb_runtime.py:228-459 | in sync mode, over every interleaving and between any two calls, counter, maps and collectives of a rank are those of the calls read one by one: a rearrangement replaces a map by the answer of the policy to that reduction exactly when neither the gain test nor the recording mode forbids it, a transfer is entered exactly for these, and a profile run transfers without replacing |
| `EplbAsync.AsyncModeFollowsAnswers` | vllm_hcu/distributed/eplb_runtime.py:212-239 | in async mode, over every interleaving of ranks and workers and between any two calls, counter, flags, maps, plans and entries of a rank are those of the calls read one by one from the answers and reductions: each step asks once for every model under way, in order, and commits its next layer exactly when the answer is yes; the next rearrangement starts exactly when the counter has reached the interval and no model is left under way |
| `EplbAsync.AnswerIsUnanimous` | vllm_hcu/distributed/eplb_runtime.py:214-226 | a readiness question is answered yes, on all ranks alike, exactly when every rank said yes, and then every rank still holds its layer |
| `Eplb.ReductionSeesAll` | vllm_hcu/distributed/eplb_runtime.py:313-338 | a load reduction combines the windows and maps of all ranks, and every rank gets the same result |
| `Eplb.DummiesRecordNothing` | vllm_hcu/distributed/eplb_runtime.py:136-206 | over every run a rank whose steps are all dummies keeps its load windows as they are |
| `Eplb.StepsRecord` | vllm_hcu/distributed/eplb_runtime.py:190-212 | a step that is no dummy records what it is given, and both kinds count |
| `Eplb.RearrangesPromptly` | vllm_hcu/distributed/eplb_runtime.py:228-239 | between calls the counter reaches the interval only while an async rearrangement is under way, so nothing else postpones the next one |
| `Eplb.AsyncInstallsPlan` | vllm_hcu/distributed/eplb_runtime.py:41-70 | layer by layer the rows that the worker hands over make up the placement chosen at the start, and all of it once the flag is cleared |
| `Eplb.ActRespects` | vllm_hcu/distributed/eplb_runtime.py:136-241 | a local action gives ranks with equal decisions equal decisions, whatever their dummy flags and loads |
| `Eplb.ResumeRespects` | vllm_hcu/distributed/eplb_runtime.py:41-70 | leaving a collective with one answer keeps decisions equal, committed layers included |
| `Eplb.ActKeeps` | vllm_hcu/distributed/eplb_runtime.py:208-241 | every local action keeps a rank's flags, plans, pending results and trace consistent |
| `Eplb.ResumeKeeps` | vllm_hcu/distributed/eplb_runtime.py:370-487 | leaving a collective keeps them consistent; with a worker as assumed the errors of the commit are not raised; what a transfer installs is stated by `Eplb.SyncModeFollowsCalls` |
| `Eplb.EplbState.MoveToWorkspace` | vllm_hcu/distributed/eplb_runtime.py:41-70 | commits the pending layer, clears the flag at the last one, or raises on a foreign layer or incompatible buffers |
| `Eplb.EplbState.StartModels` | vllm_hcu/distributed/eplb_runtime.py:371-483 | the async loop of `rearrange` marks every model, and equals that many local actions |
| `RankImbalance.RankLoadsConserve` | vllm_hcu/distributed/eplb_runtime.py:80-98 | per-rank loads sum to the logical load that has a replica, and to all of it when every loaded expert has one |
| `RankImbalance.RankLoadsNonNegative` | vllm_hcu/distributed/eplb_runtime.py:80-98 | loads that are not negative stay so on every rank |
| `RankImbalance.RankLoadIs` | vllm_hcu/distributed/eplb_runtime.py:80-93 | the load of a rank is the sum, over the slots of its block, of the load of the expert there divided by its number of replicas |
| `RankImbalance.ReplicasCounted` | vllm_hcu/distributed/eplb_runtime.py:81-84 | that number is the number of slots that hold the expert |
| `RankImbalance.TotalsAre` | vllm_hcu/distributed/eplb_runtime.py:96-98 | the total of a rank is the sum of its loads over the layers |
| `RankImbalance.MeansAgree` | vllm_hcu/distributed/eplb_runtime.py:91-100 | both variants of the metric divide by the same mean |
| `RankImbalance.ImbalanceTimesMean` | vllm_hcu/distributed/eplb_runtime.py:91-103 | the metric times the mean is the sum of the maxima of the layers, or the largest total; with mean zero it is 1 |
| `RankImbalance.ImbalanceOrdered` | vllm_hcu/distributed/eplb_runtime.py:91-103 | the layerwise imbalance is never below the aggregate one, and that is never below 1 |
| `RankImbalance.GainTestExact` | vllm_hcu/distributed/eplb_runtime.py:394-415 | for maps and loads that are not negative the division is safe, and a rearrangement goes ahead exactly when the proposed imbalance is at most 95% of the current one |
| `CheckpointAudit.ValidateTensorExtent` | tools/audit_kimi_k3_checkpoint.py:49-70 | accepts exactly a known dtype, a shape of usize dimensions, prefix products without overflow and a matching byte extent, and each report exactly when its check is the first to fail |
| `CheckpointAudit.ZeroAfterOverflow` | tools/audit_kimi_k3_checkpoint.py:59-64 | a zero dimension does not rescue a shape whose earlier product overflows |
| `CheckpointAudit.WidthsAreNamed` | tools/audit_kimi_k3_checkpoint.py:28-36 | every dtype but BOOL has the width in bits that its name says |
| `CheckpointAudit.WrittenEntry` | tools/audit_kimi_k3_checkpoint.py:49-70 | an entry written with dtype, dimensions and offsets is valid exactly when the dtype is known, the dimensions and all partial products are below 2^64, the offsets are ordered within the payload, and the bytes are as many as the elements take |
| `CheckpointAudit.MetadataIgnored` | tools/audit_kimi_k3_checkpoint.py:185-187 | whatever the metadata entry holds, there is neither a range nor a report for it |
| `CheckpointAudit.CheckEntry` | tools/audit_kimi_k3_checkpoint.py:184-202 | one header entry is reported exactly when it is invalid, and contributes its range exactly when its offsets lie in the shard |
| `CheckpointAudit.Sweep` | tools/audit_kimi_k3_checkpoint.py:203-211 | over sorted ranges it reports nothing exactly when every byte is owned once and no empty range lies inside another |
| `CheckpointAudit.SweepIsTiling` | tools/audit_kimi_k3_checkpoint.py:203-211 | meeting every sorted range at the cursor and reaching the end is the same as tiling |
| `CheckpointAudit.SortTiles` | tools/audit_kimi_k3_checkpoint.py:204-204 | sorting keeps which bytes are owned how often and which empty ranges lie inside others |
| `CheckpointAudit.ValidateShardRanges` | tools/audit_kimi_k3_checkpoint.py:176-211 | for any header order nothing is reported exactly when all entries are valid and the ranges tile the payload, and the returned names are those of the invalid entries |
| `JsonNesting.ValidateJsonNesting` | tools/audit_kimi_k3_checkpoint.py:388-416 | the character loop raises exactly when the scanner automaton does, for every text and limit |
| `JsonNesting.ItemsIgnored` | tools/audit_kimi_k3_checkpoint.py:399-405 | any string contents, escaped quotes, brackets and unicode escapes included, leave depth and string state alone |
| `JsonNesting.ScanValue` | tools/audit_kimi_k3_checkpoint.py:396-416 | scanning the text of a JSON value from any depth returns to that depth or raises, exactly by the value's height |
| `JsonNesting.NestingIsExact` | tools/audit_kimi_k3_checkpoint.py:388-416 | for every well-formed text the scanner raises exactly when the tree has a container and is higher than the limit |
| `JsonNesting.CheckHeaderNesting` | tools/audit_kimi_k3_checkpoint.py:388-416 | with the limit of 127 a header passes exactly when its tree is at most 127 containers deep |
| `ForwardContext.EvidenceIsAllFalse` | vllm_hcu/forward_context_runtime.py:233-248 | phase evidence counts exactly when it is flags throughout, at least one, and none true |
| `ForwardContext.IsPureSpecDecode` | vllm_hcu/forward_context_runtime.py:193-230 | the worklist ends on every finite object graph, cyclic or shared, and answers true exactly when the decode limit is above 1, some reachable leaf carries both lengths and all such leaves meet the bound |
| `ForwardContext.OneLeafDecides` | vllm_hcu/forward_context_runtime.py:193-230 | a single leaf is speculative decode exactly when there are speculative tokens, its queries number from one to one more than these, and its sequences are longer |
| `ForwardContext.ModeDecides` | vllm_hcu/forward_context_runtime.py:75-158 | what each graph mode gives for all evidence: full is low latency, piecewise is not, captured or not; a composite mode raises; eager is decided by the group, or alone by the evidence |
| `ForwardContext.ChoiceWithoutModes` | vllm_hcu/forward_context_runtime.py:88-106 | high throughput without auto mode and for control work, and a fixed choice goes before any graph mode |
| `ForwardContext.EvidenceFromFlags` | vllm_hcu/forward_context_runtime.py:75-158 | the flag of the runner counts, that of the holder only without it, and a batch without metadata must be uniform |
| `ForwardContext.SumsCompare` | vllm_hcu/forward_context_runtime.py:161-190 | the two all-reduced sums are equal exactly when every active rank has decode evidence, and the first is positive exactly when some rank is active |
| `ForwardContext.RanksAgree` | vllm_hcu/forward_context_runtime.py:75-190 | in a real eager forward all ranks join the all-reduce and choose alike: low latency exactly when some rank is active and every active rank has decode evidence |
| `ForwardContext.RanksNeverSplit` | vllm_hcu/forward_context_runtime.py:75-158 | whatever the shared graph mode, ranks all return the same value or all raise, and all or none enter the all-reduce |
| `ForwardContext.IdleIsNeutral` | vllm_hcu/forward_context_runtime.py:161-190 | an idle rank changes neither sum and so not the choice |
| `ExpertPlacement.AcceptsPermutations` | vllm_hcu/models/step5_text.py:252-255 | a row is accepted exactly when it is a permutation |
| `ExpertPlacement.PlaceExperts` | vllm_hcu/models/step5_text.py:234-267 | each error exactly in its case, and otherwise the stream placed tensor by tensor |
| `ExpertPlacement.PlacedWhenPlaceable` | vllm_hcu/models/step5_text.py:258-267 | a stream is placed exactly when no tensor is an expert of its own and every selected one has one row per expert, and names stay |
| `ExpertPlacement.FirstFailureDecides` | vllm_hcu/models/step5_text.py:258-267 | otherwise the first tensor that fails decides the error |
| `ExpertPlacement.PlaceConcat` | vllm_hcu/models/step5_text.py:258-267 | placing a stream is placing its parts in turn |
| `ExpertPlacement.SplitLoadsAgree` | vllm_hcu/models/step5_text.py:1541-1547 | however the stream is cut into `load_weights` calls, they fail together or load the same parameters |
| `ExpertPlacement.PlacedParams` | vllm_hcu/models/step5_text.py:258-267 | every selected parameter of a placed layer is the reindexed one and no other changes |
| `ExpertPlacement.PlacedExperts` | vllm_hcu/models/step5_text.py:258-267 | slot i of a placed layer holds all the parameters of logical expert row[i], router row and bias included |
| `ExpertPlacement.TopKUnique` | vllm_hcu/models/step5/kernels.py:35-40 | when every tie of the biased scores lies strictly below the last one selected, top-k has one answer |
| `ExpertPlacement.TopKUniqueIff` | vllm_hcu/models/step5/kernels.py:35-40 | top-k has one answer exactly when every tie lies strictly below the last value selected |
| `ExpertPlacement.TopKMapped` | vllm_hcu/models/step5/kernels.py:35-40 | a top-k over the placed scores, mapped through the row, is a top-k over the logical scores |
| `ExpertPlacement.SelectionUnchangedIff` | vllm_hcu/models/step5/kernels.py:35-40 | for every permutation, every valid selection of the placed layer maps to the same logical experts in the same order exactly when every tie of the biased scores lies strictly below the last one selected |
| `ExpertPlacement.SelectedSetUnique` | vllm_hcu/models/step5/kernels.py:35-40 | when every score left out lies strictly below the last one selected, every valid answer selects the same set |
| `ExpertPlacement.OutputReordered` | vllm_hcu/models/step5/kernels.py:41-44 | in exact arithmetic the weighted output depends only on which experts are selected |
| `ExpertPlacement.OutputOfEqualAnswers` | vllm_hcu/models/step5/kernels.py:41-44 | when all selected experts answer alike, the output is that answer times scaling and score sum, divided by the sum plus 1e-20 when renormalized |
| `ExpertPlacement.RoutingUnchanged` | vllm_hcu/models/step5/kernels.py:33-44 | when every biased score left out lies strictly below the last one selected, the placed layer selects the same logical experts, in the same order unless some of them tie, and the weighted output is equal |
| `ExpertPlacement.OutputUnchangedIff` | vllm_hcu/models/step5/kernels.py:33-44 | for positive scores, distinct experts and a scaling factor that is not zero, the placed layer is bound to give the plain output, whatever the experts answer and however ties are broken, exactly under that condition |
| `ExpertPlacement.PlacementPreservesOutput` | vllm_hcu/models/step5_text.py:234-267 | end to end: loading a placed stream and routing gives the output of the plain stream for every token for which no expert left out ties with a selected one, every routing function and every expert function |
| `ExpertPlacement.TiesMayDiffer` | vllm_hcu/models/step5/kernels.py:33-44 | for any routing and any two experts with tied biased scores and different weighted outputs, placed by the swap, valid selections of the plain and the placed layer give different outputs |
| `SwaFused.LaneSquares` | vllm_hcu/models/step5_swa_fused.py:54-57 | the square sums of two padded halves are the square sum of the head |
| `SwaFused.HeadLaneIsRotated` | vllm_hcu/models/step5_swa_fused.py:52-62 | working on two padded halves computes the normalized, rotated head |
| `SwaFused.RotationKeepsSquares` | vllm_hcu/models/step5_swa_fused.py:62-62 | for cos and sin on the circle the two results have the square sum of the two inputs |
| `SwaFused.RotationInverts` | vllm_hcu/models/step5_swa_fused.py:62-62 | rotating on by the opposite angle gives the pair back |
| `SwaFused.RotatedHeadKeepsLength` | vllm_hcu/models/step5_swa_fused.py:52-62 | so every rotated head has the square sum of its normed head |
| `SwaFused.RotatedAtCorners` | vllm_hcu/models/step5_swa_fused.py:52-62 | the angle zero changes nothing and a quarter turn takes (a, b) to (-b, a), with the elements of a pair half a head apart |
| `SwaFused.NormedHeadIsUnit` | vllm_hcu/models/step5_swa_fused.py:56-61 | with an exact rsqrt and zero weights the mean square of a normed head is mean / (mean + eps) |
| `SwaFused.WeightsMultiply` | vllm_hcu/models/step5_swa_fused.py:58-61 | a weight w multiplies its own element by 1 + w |
| `SwaFused.QuantizedSaturates` | vllm_hcu/models/step5_swa_fused.py:116-118 | within 448 scales the quotient by the scale is converted, and beyond them the nearer of -448 and 448 |
| `SwaFused.QueryCellIsLocal` | vllm_hcu/models/step5_swa_fused.py:97-121 | a query cell depends on the head of its token, the angles at its position, weights, eps and scale, and on nothing else |
| `SwaFused.CacheCellsAreLocal` | vllm_hcu/models/step5_swa_fused.py:122-165 | the same for key cells; a value cell depends on its element and scale only |
| `SwaFused.KeysRoundAlike` | vllm_hcu/models/step5_swa_fused.py:132-135 | keys that round to the same bf16 are stored alike |
| `SwaFused.StoredIsReference` | vllm_hcu/models/step5_swa_fused.py:109-165 | the value each lane stores is the per-token norm, RoPE and quantize reference of its cell |
| `SwaFused.QueryProgram` | vllm_hcu/models/step5_swa_fused.py:110-121 | a query program writes the reference to its heads of its token and nothing else |
| `SwaFused.StoreKey` | vllm_hcu/models/step5_swa_fused.py:124-146 | a kv program writes the reference key to the cell of the token's slot and nothing else |
| `SwaFused.StoreValue` | vllm_hcu/models/step5_swa_fused.py:147-165 | the same for the value |
| `SwaFused.OneTokenPerCell` | vllm_hcu/models/step5_swa_fused.py:136-146 | with distinct slots a cache cell belongs to at most one token |
| `SwaFused.OneQueryProgram` | vllm_hcu/models/step5_swa_fused.py:110-112 | a query head belongs to at most one program of its token |
| `SwaFused.AllHeadsCovered` | vllm_hcu/models/step5_swa_fused.py:207-208 | every query head has a program exactly when the group size divides the number of heads |
| `SwaFused.Program` | vllm_hcu/models/step5_swa_fused.py:95-165 | the whole effect of one grid program on queries and both caches |
| `SwaFused.Launch` | vllm_hcu/models/step5_swa_fused.py:190-238 | for distinct slots and any order of the grid, queries and caches equal the reference, and tokens without a slot and all other cells are untouched |
| `SwaFused.GuardedLaunch` | vllm_hcu/models/step5_swa_fused.py:393-411 | under the guard of the caller, that the group size divides the number of heads, every query head of every token is written with the reference |
| `Fp8Einsum.ClampIsIdle` | vllm_hcu/ops/fp8_einsum_fallback.py:78-99 | blocks of ceiling size cover the axis, so the clamp never moves the index of a live lane |
| `Fp8Einsum.CeilDivIsLeast` | vllm_hcu/ops/fp8_einsum_fallback.py:151-153 | the block size is the least one with which the given number of blocks covers the axis |
| `Fp8Einsum.LaneIsTerm` | vllm_hcu/ops/fp8_einsum_fallback.py:75-112 | a live lane is the scaled term of the dot product |
| `Fp8Einsum.TileAdds` | vllm_hcu/ops/fp8_einsum_fallback.py:71-112 | a tile adds exactly the terms it covers, and lanes past the end add nothing |
| `Fp8Einsum.Accumulate` | vllm_hcu/ops/fp8_einsum_fallback.py:69-112 | the reduction loop ends with the full scaled dot product in every live lane |
| `Fp8Einsum.Program` | vllm_hcu/ops/fp8_einsum_fallback.py:61-115 | a grid program writes the dot product to the cells it owns and nothing else |
| `Fp8Einsum.OneOwner` | vllm_hcu/ops/fp8_einsum_fallback.py:61-68 | every output cell has exactly one owner in the grid |
| `Fp8Einsum.Launch` | vllm_hcu/ops/fp8_einsum_fallback.py:136-190 | for all shapes and any order of the grid the output is the full scaled dot product |
| `ScaleRounding.LeastPowerOfTwo` | vllm_hcu/models/deepseek_v4.py:276-282 | for every normal float32 scale the chosen one is not below it exactly when the rounded exponent is at most 254, and then it is the least such power of two |
| `ScaleRounding.ClampsIdle` | vllm_hcu/models/deepseek_v4.py:273-281 | neither clamp changes the exponent for any finite block, however its quotient by 448 is faithfully rounded |
| `ScaleRounding.CoversQuotientIff` | vllm_hcu/models/deepseek_v4.py:276-282 | for any faithful rounding the chosen scale is not below the true quotient exactly when that was not rounded down to a power of two, and then it is the least such power of two |
| `ScaleRounding.NeverRoundedDown` | vllm_hcu/models/deepseek_v4.py:276-280 | rounded to nearest, the quotient of a float32 magnitude by 448 is never rounded down to a power of two |
| `ScaleRounding.NearestCovers` | vllm_hcu/models/deepseek_v4.py:273-282 | so for every finite block the chosen scale is the least power of two not below the true quotient |
| `ScaleRounding.PackRoundTrips` | vllm_hcu/models/deepseek_v4.py:294-298 | four exponent bytes packed into a signed 32-bit word unpack exactly |
| `ScaleRounding.GroupMaxBounds` | vllm_hcu/models/deepseek_v4.py:271-274 | the group maximum bounds every magnitude, is attained or is the floor |
| `ScaleRounding.MaxBoundedIff` | vllm_hcu/models/deepseek_v4.py:284-287 | for any faithful rounding the largest scaled magnitude is at most 448 exactly when the quotient was not rounded down to a power of two |
| `ScaleRounding.FaithfulLaneBounded` | vllm_hcu/models/deepseek_v4.py:284-287 | then every scaled magnitude of the group is at most 448 |
| `ScaleRounding.ScaledInverts` | vllm_hcu/models/deepseek_v4.py:282-285 | every value, of either sign, is its scaled value times the decoded scale |
| `ScaleRounding.LaneBounded` | vllm_hcu/models/deepseek_v4.py:271-287 | with the quotient rounded to nearest no scaled magnitude of a finite group exceeds 448 |
| `ScaleRounding.StageBlock` | vllm_hcu/models/deepseek_v4.py:263-298 | the packed bytes are the rounded exponents of the four groups; every staged value is the conversion of a value that, times the scale decoded from the stored word, is the input; and with the quotient rounded to nearest no scaled magnitude of a finite group exceeds 448 |
| `QkvSplit.SectionAt` | vllm_hcu/models/hy_v3_mtp.py:368-375 | a section holds the rows of its group range in group order |
| `QkvSplit.SplitMovesRows` | vllm_hcu/models/hy_v3_mtp.py:353-375 | every interleaved row moves to its destination |
| `QkvSplit.DestinationInjective` | vllm_hcu/models/hy_v3_mtp.py:353-375 | no two rows meet |
| `QkvSplit.DestinationOnto` | vllm_hcu/models/hy_v3_mtp.py:353-375 | every output row has a source |
| `QkvSplit.QueryHeadOrder` | vllm_hcu/models/hy_v3_mtp.py:368-372 | when kv heads divide attention heads, head j of group k becomes query head k times the group size plus j |
| `QkvSplit.CutShards` | vllm_hcu/models/hy_v3_mtp.py:514-530 | the running offsets cut the weight into consecutive shards of the right lengths that are together the whole weight, and the loop is refused exactly when the rows are not divisible |
| `QkvSplit.LoadQkv` | vllm_hcu/models/hy_v3_mtp.py:396-405 | accepted exactly when the rows fit the reshape and are divisible; the three cuts are together the rearranged weight, and fall on the query, key and value sections exactly when kv heads divide attention heads, or heads are empty |
| `QkvSplit.BoundariesIff` | vllm_hcu/models/hy_v3_mtp.py:514-530 | for accepted rows the running offsets equal the section boundaries exactly under that condition |
| `QkvSplit.MisalignedCuts` | vllm_hcu/models/hy_v3_mtp.py:514-530 | three heads over two kv heads of width 7: 42 rows are accepted, and the first cut is 18 rows long where the query section has 14 |

## Left out

- HTTP forwarding, ZMQ sockets, the socket cache, msgpack, heartbeats and logging: input and output, or bookkeeping no later decision depends on.
- NCCL id generation: ids are fresh numbers.
- RouterPairing.RemoteRanksAreSentRanks: the dispatcher reads the tables without the instance lock; its lookup is modelled as one atomic step.
- RouterPairing.EveryReadyPairIsInitialized: an instance that changes its sizes between messages is not covered, because the stream is then no longer of one layout.
- RouterRegistry: the nested rank dictionaries are one map from coordinates, and an instance's rank table is kept beside it instead of inside it; joining addresses by `_` into a pair id is replaced by the pair of addresses.
- The other two proxies of the directory: the same protocol with less state.
- hipBLASLt, LightOp, AITER, DeepGEMM, torch and Triton themselves: foreign code, abstract steps or function parameters.
- PlanCache.SelectAlgorithm: the heuristic query that fills the candidate list is an input.
- PlanCache.CacheIsSafe: of tensor validation the devices, shapes and size limits are modelled; dtypes, contiguity and device properties are not, because no later step depends on them.
- Eplb: elastic rank mappings, timing events, the dump of placements and the propagation of shared tensors are not part of this model.
- Eplb.AsyncInstallsPlan: what the upstream worker hands over is assumed, not proved: layers in order, rows of the plan made from the snapshot, matching buffers and metadata.
- EplbAsync.AsyncModeFollowsAnswers: rests on the same assumption about the worker; the policy is applied to the snapshot at the start, where the worker applies it later.
- IEEE rounding and FP8 conversion: exact reals and uninterpreted functions, except the float32 quotient of the scale, whose rounding is modelled as faithful or to nearest.
- ForwardContext.SumsCompare: the 32-bit width of the reduced counters is not modelled; the group would need two billion ranks.
- ExpertPlacement.PlaceExperts: the name pattern is a classification of names, and file reading is an input.
- ExpertPlacement.RoutingUnchanged: rows whose gating output is NaN, and the fused routing kernel, are not part of this model.
- JsonNesting.NestingIsExact: a number is any nonempty text of number characters, which is more than the grammar of RFC 8259 admits; member names of one object may repeat.
- Model wiring, benchmarks, environment handling and the rest of the auditor: layer construction, plumbing, or properties that would only add easy members.
