# Verified models of the stateful parts of the training and serving stack

The project models the control code and data movement of the repository that carries hard guarantees, and proves
those guarantees. Verify it with `dafny verify dfyconfig.toml`.

| files | system |
|---|---|
| `ExternalDispatch*.dfy` | The dispatcher and watchdog of externally served sampling requests. `ExternalDispatch` is a step system: one event is what happens between two awaits. Attempts run, are cancelled (and may still write), and end; database executes land or raise; processes stop and restart. `ExternalDispatchSafety`, `ExternalDispatchBudget`, `ExternalDispatchCauses`, `ExternalDispatchTiming` and `ExternalDispatchDeadline` prove what all runs keep, what is failed and why, and how far runs can go. `ExternalDispatcher` is the object with its maps; anything may happen at its awaits, and each method is proved to make a run of that system. |
| `Swrr.dfy`, `Preferences.dfy`, `SwrrWeights.dfy`, `RouterOrder.dfy`, `Router.dfy` | The summary router: smooth weighted round robin and its fairness, the weights a rebuild assigns, rendezvous and preferred-first orders, and the object with breaker, round-robin and sticky state. |
| `Rpc.dfy`, `RpcLockstep.dfy`, `RpcModels.dfy`, `RpcCalls.dfy` | Broadcast and acknowledgement between N processes as a step system with a key-value store and barriers, its safety, termination and replica agreement, what the unbroadcast `delete_model` does to the registries, and the code of one endpoint. |
| `MicroBatch.dfy`, `Slots.dfy`, `AdapterSlots.dfy` | One model pass cut into padded micro-batches, the per-adapter gradient accumulator, and adapter slots. |
| `ArcticRepack.dfy` | Repacking left-padded batches to a common prompt/response boundary, filled in place. |
| `SplitBatch.dfy`, `BatchPass.dfy`, `MixedPass.dfy` | Splitting a mixed batch by model; aligning, checking, padding, trimming and slicing one model's rows; which mixed calls are answered, and what batching changes. |
| `StickyRoute.dfy` | Prefix-sticky engine choice with half eviction. |
| `KvHeads.dfy`, `LoraMix.dfy` | Replicated key/value heads and the learnable mix of two LoRAs, over the reals. |
| `Renderer.dfy` | Splicing image placeholders into token streams. |
| `Collections.dfy`, `Division.dfy`, `Sums.dfy`, `Padding.dfy`, `MaskedRows.dfy` | Shapes, arithmetic, sums and masks the others share. |

Models are uninterpreted functions of a row (or of a row's attended content); hashes, random draws, clocks and the
answers of servers and databases are parameters or nondeterministic events. A row of an earlier process that cannot
be replayed, or that has vanished, is one whose request cannot be loaded.

Findings about the code, each with a lemma:

- A terminal write of the watchdog that is given up after its three tries leaves the row PENDING with its retry
  count forgotten: M re-dispatches is a bound exactly if no write is given up, and M * (1 + given-up writes) is the
  least one (`ExternalDispatchBudget.LeastBound`, `ExternalDispatchBudget.BudgetIsReached`).
- `delete_model` is executed by process 0 without a broadcast: the replicas stay equal exactly if the model was not
  registered (`RpcModels.UnbroadcastDelete`), and a model created later lands in different slots, or fails on the
  workers alone, under an exact condition (`RpcModels.NextCreateDiverges`, with a run in
  `RpcModels.DeleteModelDiverges`).
- `delete_model` leaves the slot's accumulated gradients where they are: a new model's slot is clean exactly if
  nothing was run backward on it since its last optimizer step (`AdapterSlots.DeleteThenCreate`, with a run in
  `AdapterSlots.ReusedSlotIsDirty`).
- A batch of several models is answered only if every model's rows can run (`MixedPass.Forward` and
  `MixedPass.ForwardBackward` give the exact condition). One request without data
  (`MixedPass.EmptyRequestSinksMixedBatch`), or two requests of one model of which only one carries log-probabilities
  (`MixedPass.RaggedPairRefused`), make the whole call fail; a training call has by then trained the models before
  (`MixedPass.RefusedCallHasTrained`).
- All rows of a model in one batch are trained under the first row's loss and the first configuration given, with the
  tensors that any of them carries. So a request is answered as it would be alone exactly if the others change none
  of the three (`MixedPass.TrainedAsAlone`, and `MixedPass.ForwardedAsAlone` for the tensors of a forward call), and
  can even be answered where it would be refused alone (`MixedPass.ServedAlone`).

## Model

| member | source | states |
|---|---|---|
| `ExternalDispatch.InvRun` | skyrl/tinker/dispatch.py:361-627 | Every reachable state, whatever the interleaving of API calls, attempts, late callbacks, sweeps, shutdowns and restarts, satisfies the tracking invariant. |
| `ExternalDispatchSafety.ExactlyOnce` | skyrl/tinker/dispatch.py:155-213 | Under every interleaving at most one terminal write of a request wins; the row is terminal exactly when one did, and holds that write's outcome. |
| `ExternalDispatchSafety.TerminalForever` | skyrl/tinker/dispatch.py:155-213 | Once a row is terminal at some point of a run, its status and result never change again. |
| `ExternalDispatchSafety.InflightTracksCurrentAttempts` | skyrl/tinker/dispatch.py:361-394 | In-flight and start-time maps have one domain, and an entry is an uncancelled attempt of its own row with that attempt's start. |
| `ExternalDispatchSafety.EntryLeavesOnlyBy` | skyrl/tinker/dispatch.py:377-394 | The only ways an attempt stops being tracked; in particular a late callback of a superseded attempt never evicts its replacement. |
| `ExternalDispatchSafety.OneLiveAttempt` | skyrl/tinker/dispatch.py:475-513 | If the API starts each request once, no request ever has two uncancelled running attempts. |
| `ExternalDispatchSafety.CancelOnlyPastCeiling` | skyrl/tinker/dispatch.py:479-509 | A sweep cancels an attempt only after that attempt itself, not its row, has run past the ceiling. |
| `ExternalDispatchSafety.RedispatchBudget` | skyrl/tinker/dispatch.py:522-597 | In one process lifetime a row is re-dispatched at most M times, plus M more for each terminal write that was given up. |
| `ExternalDispatchSafety.SweepSettlesRow` | skyrl/tinker/dispatch.py:475-520 | Whatever happens at a sweep's awaits, a row it moves on from is terminal, tracked by a live attempt, not replayable, young, or had its terminal write given up. |
| `ExternalDispatchSafety.SweepCovers` | skyrl/tinker/dispatch.py:467-520 | Whatever attempts, callbacks, clients and the clock do at a sweep's awaits, no row of its query is passed over: at every point of the sweep each still waits, is settled, had its terminal write given up, or lost to its own end the attempt that settled it when the sweep moved on. |
| `ExternalDispatchSafety.SweepReachesAll` | skyrl/tinker/dispatch.py:467-520 | So in the state in which a sweep ends, every row of its query is terminal, tracked by a live attempt, not replayable or young - unless its terminal write was given up, or the attempt then live has itself ended since. |
| `ExternalDispatchBudget.BudgetIsReached` | skyrl/tinker/dispatch.py:522-530 | For every M and g some run gives up g terminal writes and re-dispatches M * (1 + g) times, the row still pending. |
| `ExternalDispatchBudget.LeastBound` | skyrl/tinker/dispatch.py:522-597 | M * (1 + g) is the least bound on re-dispatches over all runs with at most g given-up writes; M itself is one iff g is 0. |
| `ExternalDispatchTiming.DeadlineClosedForm` | skyrl/tinker/dispatch.py:467-597 | The chain of per-attempt deadlines sums to t0 + max(C, stale) + k*C + (k+1)*P. |
| `ExternalDispatchTiming.BoundedResolution` | skyrl/tinker/dispatch.py:467-597 | With timely sweeps and landing terminal writes, a replayable row is terminal by t0 + max(C, stale) + M*C + (M+1)*P, whatever its attempts do. |
| `ExternalDispatchDeadline.PendingUntilDeadline` | skyrl/tinker/dispatch.py:467-597 | For every configuration whose abandon threshold does not come first, a timely run leaves the row pending until within any slack of that deadline. |
| `ExternalDispatchDeadline.LeastDeadline` | skyrl/tinker/dispatch.py:467-597 | So max(C, stale) + M*C + (M+1)*P is the least time within which every replayable row is terminal. |
| `ExternalDispatchCauses.NoLaunchPastAbandon` | skyrl/tinker/dispatch.py:532-569 | In no run does a sweep start an attempt for a row past the abandon threshold, nor for one whose re-dispatch budget is spent. |
| `ExternalDispatchCauses.FailuresHaveReasons` | skyrl/tinker/dispatch.py:532-569 | Every failure the watchdog writes has its reason: the row is past the abandon threshold, or else its budget is spent and the count is named. |
| `ExternalDispatchCauses.UnwantedRowsFail` | skyrl/tinker/dispatch.py:475-569 | A visited row past the threshold, or out of budget, that is not left alone holds that failure when the watchdog moves on, unless another write was first or its own was given up. |
| `ExternalDispatchCauses.LoadsWhatHeld` | skyrl/tinker/dispatch.py:458-465 | What a load found did hold of that row at a moment at which it was being loaded: pending with a request to replay, or not. |
| `ExternalDispatchCauses.StartsWhatIsLoaded` | skyrl/tinker/dispatch.py:571-597 | A re-dispatch starts one attempt and counts it exactly if the load found the row wanted; otherwise nothing is started and the count is forgotten. |
| `ExternalDispatcherImpl.ExternalDispatcher.Dispatch` | skyrl/tinker/dispatch.py:361-375 | Starts one uncancelled attempt now and makes it the tracked one of its row, whatever was tracked before; exactly the dispatch step, invariant kept. |
| `ExternalDispatcherImpl.ExternalDispatcher.OnTaskDone` | skyrl/tinker/dispatch.py:377-394 | The done-callback removes the entry only if it still points at this attempt: exactly the callback step. |
| `ExternalDispatcherImpl.ExternalDispatcher.Happen` | skyrl/tinker/dispatch.py:361-416 | An event of the outside - a tick, insert, dispatch, attempt write, death or callback - changes the object as the step system says. |
| `ExternalDispatcherImpl.ExternalDispatcher.Await` | skyrl/tinker/dispatch.py:192-204 | Whatever happens at an await is a run of outside events. |
| `ExternalDispatcherImpl.ExternalDispatcher.CompleteExternalFuture` | skyrl/tinker/dispatch.py:155-213 | With anything happening before each try, the write lands at the first execute that does not raise, within three tries; it returns True iff it changed the row, which was pending until then, and else changes no row. |
| `ExternalDispatcherImpl.TriesAreSteps` | skyrl/tinker/dispatch.py:191-213 | The tries of a terminal write, with what happens outside between them, are a run of the step system. |
| `ExternalDispatcherImpl.ExternalDispatcher.Fail` | skyrl/tinker/dispatch.py:522-530 | Makes a run whose own events are the raising executes and the last one; the row's retry count is forgotten either way. |
| `ExternalDispatcherImpl.ExternalDispatcher.LoadRequest` | skyrl/tinker/dispatch.py:458-465 | The read of a stored request, with anything happening before it and between it and the watchdog going on; what it found is what held when it read. |
| `ExternalDispatcherImpl.ExternalDispatcher.Redispatch` | skyrl/tinker/dispatch.py:532-597 | Reports a failed row exactly when it is past the abandon threshold or out of budget, and then starts nothing; else reloads it and starts a counted attempt, or ends the sweep if the load raises. |
| `ExternalDispatcherImpl.ExternalDispatcher.SweepRow` | skyrl/tinker/dispatch.py:475-513 | One iteration of the sweep loop, with anything happening at its awaits, is a run that visits this row and stops at the next; the report names the row as re-dispatched exactly if it was. |
| `ExternalDispatcherImpl.ExternalDispatcher.SweepOnce` | skyrl/tinker/dispatch.py:467-520 | A whole pass, with anything happening at its awaits, is a run of the step system; if completed, every scanned row is settled in the state it returns in, or had its write given up, or lost the attempt that settled it; its report lists each re-dispatch as often as it happened. |
| `ExternalDispatcherImpl.ExternalDispatcher.Inspect` | skyrl/tinker/dispatch.py:475-513 | Cancels an overdue attempt, leaves a live or young row alone, and says whether to act. |
| `ExternalDispatcherImpl.ExternalDispatcher.AClose` | skyrl/tinker/dispatch.py:601-627 | Shutdown stops a running watchdog wherever it stands, with anything happening while it is awaited, then cancels every tracked attempt, clears the maps and leaves the rows as they are. |
| `Swrr.PicksKeepBalance` | skyrl-agent/services/router_simple.py:152-174 | After any number of picks the currents sum to zero and none is below 1 - T. |
| `Swrr.CurrentIsDebt` | skyrl-agent/services/router_simple.py:163-173 | A current is what its server has been owed so far minus what it was charged for its turns. |
| `Swrr.AtMostItsShare` | skyrl-agent/services/router_simple.py:152-174 | Any k picks give a server of weight w at most (k*w + T - 1) / T turns. |
| `Swrr.TurnsAddUp` | skyrl-agent/services/router_simple.py:152-174 | Turns of all servers add up to the number of picks. |
| `Swrr.ExactShares` | skyrl-agent/services/router_simple.py:152-174 | Any T consecutive picks choose every server exactly its weight number of times (so a zero-weight one never). |
| `Swrr.ZeroAtMultiples` | skyrl-agent/services/router_simple.py:152-174 | All currents are zero after every multiple of T picks. |
| `Swrr.NoStarvation` | skyrl-agent/services/router_simple.py:152-174 | A server of positive weight is chosen within any T consecutive picks. |
| `SwrrWeights.RebuiltWheel` | skyrl-agent/services/router_simple.py:116-149 | A rebuild over a non-empty active set always yields non-negative weights of positive total. |
| `SwrrWeights.FairRest` | skyrl-agent/services/router_simple.py:132-138 | Any two servers without a preference get weights differing by at most one. |
| `SwrrWeights.OthersGetTheRest` | skyrl-agent/services/router_simple.py:127-138 | The servers without a preference get exactly the percentage the preferred ones leave. |
| `SwrrWeights.PreferredShare` | skyrl-agent/services/router_simple.py:127-142 | A preferred server that is on gets its ratio to the nearest percent, but at least 1. |
| `SwrrWeights.EarlierGetMore` | skyrl-agent/services/router_simple.py:132-138 | Of two servers without a preference the earlier never gets less. |
| `SwrrWeights.TotalIsHundred` | skyrl-agent/services/router_simple.py:125-142 | With both preferred servers on, at least a percent each and a percent left for the others, the weights add up to 100. |
| `Router.RebuiltWeights` | skyrl-agent/services/router_simple.py:116-149 | The rebuild loop computes exactly those weights. |
| `Router.BumpAll` | skyrl-agent/services/router_simple.py:163-171 | The pick loop raises every current by its weight and finds the first greatest one. |
| `Router.SummaryRouter.SwrrPick` | skyrl-agent/services/router_simple.py:152-174 | One pick over the active set, after a rebuild exactly when the set has changed; the picks since a rebuild form a run, so the fairness theorems hold of the object. |
| `RouterOrder.HrwSorts` | skyrl-agent/services/router_simple.py:230-245 | Rendezvous order is a permutation of the servers by descending score. |
| `RouterOrder.HrwCommutesWithRemoval` | skyrl-agent/services/router_simple.py:230-245 | Removing servers before or after ordering gives the same order. |
| `RouterOrder.WinnerStays` | skyrl-agent/services/router_simple.py:230-245 | A key's first server keeps its place when others disappear. |
| `RouterOrder.RandomOrderPermutes` | skyrl-agent/services/router_simple.py:264-286 | Whatever the random draw and rotation, the order without round robin contains each active server exactly once. |
| `RouterOrder.HrwStable` | skyrl-agent/services/router_simple.py:230-245 | Servers of equal score keep the order in which they were given. |
| `RouterOrder.RandomOrderShape` | skyrl-agent/services/router_simple.py:264-276 | A drawn preferred server is first and the others keep their order behind it; if neither is drawn the rotation is used. |
| `RouterOrder.RotationShape` | skyrl-agent/services/router_simple.py:277-286 | The rotation goes through the servers without preference from the next one on and around, and the preferred ones that are on follow. |
| `Router.SummaryRouter.OrderedCandidates` | skyrl-agent/services/router_simple.py:248-289 | Non-sticky candidates are a permutation of the active primaries that starts with the pick and keeps the others in order, followed by the active standbys. |
| `Router.SummaryRouter.StickyCandidates` | skyrl-agent/services/router_simple.py:414-452 | Sticky candidates are a permutation of the active set; the remembered server is first and the rest descend by score; a mapping to an active server is kept, and no other key's changes. |
| `Router.SummaryRouter.StickyFirst` | skyrl-agent/services/router_simple.py:414-452 | The first server of a key is its mapping if active; else, remembered, a preferred active server by the draw, else the one of greatest load-aware score among those without preference. |
| `Router.OffExactlyWhen` | skyrl-agent/services/router_simple.py:292-314 | A server is off exactly when some manual disable or threshold-reaching error was not followed by an enable. |
| `Router.TrippedIsOff` | skyrl-agent/services/router_simple.py:301-314 | An error run that reached the threshold leaves its server off. |
| `Router.ErrorRunIs` | skyrl-agent/services/router_simple.py:292-314 | The failure count is the number of errors since the server's last success or manual enable. |
| `Router.RecordingKeeps` | skyrl-agent/services/router_simple.py:292-374 | Whatever order events are recorded in, counts are the error runs, the disabled set is what the history leaves off, and the metrics hold that flag and how often each server served and erred. |
| `Router.CountImpliesDisabled` | skyrl-agent/services/router_simple.py:301-314 | Every failure count at or above the threshold belongs to a disabled server whose metrics flag says so. |
| `Router.SummaryRouter.MarkOk` | skyrl-agent/services/router_simple.py:292-298 | Records a success: the count is cleared, the served count grows, the disabled set stays. |
| `Router.SummaryRouter.MarkErr` | skyrl-agent/services/router_simple.py:301-314 | Records an error, which disables the server exactly when its run reaches the threshold. |
| `Router.SummaryRouter.AdminDisable` | skyrl-agent/services/router_simple.py:356-363 | Records a manual disable. |
| `Router.SummaryRouter.AdminEnable` | skyrl-agent/services/router_simple.py:366-374 | Records a manual enable, the only thing that brings a server back. |
| `Router.SummaryRouter.Forward` | skyrl-agent/services/router_simple.py:472-542 | With other requests recording what they like while a candidate is asked, failover asks those on at their turn in order, stops at the first that serves, and records each failure. |
| `Router.QuietTrial` | skyrl-agent/services/router_simple.py:472-542 | When nobody else records anything, the candidates asked are those active when the request came, one error each. |
| `Rpc.InvRun` | skyrl/backends/rpc.py:94-159 | The protocol invariant - lockstep, own slots, arrivals, collected errors - holds in every reachable state. |
| `RpcLockstep.CountersAgree` | skyrl/backends/rpc.py:127-131 | Acknowledgement counters of any two processes never differ by more than one. |
| `RpcLockstep.SlotsAreOwn` | skyrl/backends/rpc.py:127-146 | No key is written twice, and slot (k, p) only ever holds what process p had to say about command k. |
| `RpcLockstep.ReadsNeverBlock` | skyrl/backends/rpc.py:141-149 | While process 0 collects errors, every slot it reads is already there. |
| `RpcLockstep.ErrorsExact` | skyrl/backends/rpc.py:94-159 | A call returns normally iff the command succeeded on every process; its error map has exactly the failing processes as keys, with the first 16 KiB of their traces. |
| `RpcLockstep.ExecutesAsSent` | skyrl/backends/rpc.py:254-279 | Executing a command: an inactive process 0 refuses, an inactive worker ignores it, an active worker that cannot prepare it reports that and runs nothing, and any other runs it. |
| `RpcLockstep.InactiveWorkersAreSilent` | skyrl/backends/rpc.py:260-263 | An inactive worker acknowledges every command without error, keeps its initial state and is never blamed. |
| `RpcLockstep.ReturnsExactlyWhen` | skyrl/backends/rpc.py:254-279 | A call returns normally iff it succeeded on process 0 and on every active worker. |
| `RpcLockstep.NoDeadlock` | skyrl/backends/rpc.py:94-159 | Unless nothing is in progress some process can step, for any mix of active, inactive and failing workers. |
| `RpcLockstep.CallsComplete` | skyrl/backends/rpc.py:254-279 | From any reachable state the protocol comes to rest after a fixed number of steps in any order, with every broadcast command answered. |
| `RpcLockstep.RunsReplay` | skyrl/backends/jax.py:1381-1401 | Every worker has executed exactly the broadcast commands in order; so has process 0 while it only broadcasts. |
| `RpcLockstep.ReplicasAgree` | skyrl/backends/jax.py:1381-1430 | Active replicas that executed equally many deterministic broadcast commands are equal, with equal outcomes. |
| `RpcLockstep.InactiveCoordinatorFails` | skyrl/backends/jax.py:1391-1397 | With an inactive coordinator every call fails on process 0. |
| `RpcModels.UnbroadcastDelete` | skyrl/backends/jax.py:798-816 | An unbroadcast delete_model keeps process 0 equal to an active worker iff the model is not registered, the guard at line 800. |
| `RpcModels.NextCreateDiverges` | skyrl/backends/jax.py:772-816 | After an unbroadcast delete the next broadcast create_model succeeds on process 0, fails on a worker iff the registry was full, and otherwise lands in different slots iff the deleted slot is below the worker's least free one. |
| `RpcModels.DeleteModelDiverges` | skyrl/backends/jax.py:763-816 | For any number of processes there is such a run: one create, one unbroadcast delete, one create, and the new model is in slot 1 on process 0 and in slot 2 on the workers. |
| `RpcCalls.Endpoint.CallWithAck` | skyrl/backends/rpc.py:152-169 | On any process its own exception goes first; process 0 alone raises the combined error, which names the failing processes in ascending order, and gives its result iff no slot is flagged. |
| `RpcCalls.Endpoint.Synchronize` | skyrl/backends/rpc.py:94-149 | The error exchange of one process: nothing for a lone process, nothing on workers, and on process 0 exactly the flagged slots. |
| `RpcCalls.ReadsAreTheLoop` | skyrl/backends/rpc.py:141-149 | What the protocol's interleaved reads collected is what that code computes from the slots. |
| `Padding.PadSizeLeast` | skyrl/backends/utils.py:45-52 | The FSDP and worker padding is the least that makes the row count divisible. |
| `MicroBatch.PadBatch` | skyrl/backends/utils.py:27-43 | Every padded row is its sequence followed by zeros. |
| `MicroBatch.AddPadded` | skyrl/backends/utils.py:45-52 | Padding rows change no gradient sum and no count of any adapter but 0. |
| `MicroBatch.AddTwice` | skyrl/backends/jax.py:349-356 | Accumulating two batches one after the other is accumulating their concatenation. |
| `MicroBatch.AddRow` | skyrl/backends/jax.py:349-356 | A row adds its own gradient and one count to its own adapter, and nothing to another. |
| `MicroBatch.RunMicroBatches` | skyrl/backends/jax.py:882-935 | For any micro-batch and FSDP size the chunks joined are the outputs of one full unpadded pass, every adapter but 0 accumulates what that pass would, and all chunks but the last have exactly the micro-batch size. |
| `MicroBatch.ModelPass` | skyrl/backends/jax.py:818-982 | Each request gets one entry per row: the model's losses and log-probabilities of just that row, each a prefix as long as the row or, if shorter, whole. |
| `Slots.FullExactlyWhen` | skyrl/backends/jax.py:772-776 | Slots run out exactly when there are max - 1 models. |
| `Slots.SlotsDifferExactlyWhen` | skyrl/backends/jax.py:772-776 | With and without a deleted model the least free slots differ iff the deleted slot is below the other, and then it is the deleted one. |
| `AdapterSlots.Backend.CreateModel` | skyrl/backends/jax.py:763-796 | Role, room and rank are checked in this order; a new model gets the least free slot above the reserved 0 and nothing else changes; models keep distinct slots; no accumulator is touched. |
| `AdapterSlots.Backend.DeleteModel` | skyrl/backends/jax.py:798-816 | Deletes exactly a known model and, as in the code, leaves the slot's accumulated gradients in place. |
| `AdapterSlots.DeleteThenCreate` | skyrl/backends/jax.py:763-816 | After a delete and a create, the new model's slot starts clean iff nothing was run backward on it since its last optimizer step. |
| `AdapterSlots.ReusedSlotIsDirty` | skyrl/backends/jax.py:763-816 | A run in which a new model starts with a count of 1 and the deleted model's gradient enters its first optimizer step. |
| `AdapterSlots.Backend.Pass` | skyrl/backends/jax.py:984-997 | A pass adds to each slot exactly the gradients of its own rows, and a forward-only pass adds nothing; each request gets its own rows' losses and log-probabilities. |
| `AdapterSlots.MeanIsAverage` | skyrl/backends/jax.py:358-367 | The mean handed to the optimizer is the average of the slot's pending gradients and zero for every other slot. |
| `AdapterSlots.Backend.OptimStep` | skyrl/backends/jax.py:1090-1112 | The step sees the average of everything run on the slot since its last step and resets that slot only. |
| `ArcticRepack.ReadoutKept` | integrations/arctic_rl/trainer.py:331-346 | The attended tokens of a repacked row are those of the original row: prompt, then response. |
| `ArcticRepack.PositionsCount` | integrations/arctic_rl/trainer.py:357-360 | Position ids count 0, 1, 2, ... over the row's tokens and are 0 on padding. |
| `ArcticRepack.ResponsesAligned` | integrations/arctic_rl/trainer.py:348-355 | After left padding, the response mask selects exactly the response tokens, and of any response tensor exactly those tokens' values in order. |
| `ArcticRepack.ResponsePositions` | integrations/arctic_rl/trainer.py:357-360 | The positions of the response tokens continue the prompt's. |
| `ArcticRepack.Widths` | integrations/arctic_rl/trainer.py:299-313 | The new widths are the longest prompt and the longest response, the latter widened when ZoRRO training asks for it. |
| `ArcticRepack.RepackIds` | integrations/arctic_rl/trainer.py:317-341 | The row-by-row filling of the token tensor gives exactly the repacked rows. |
| `ArcticRepack.RepackAttention` | integrations/arctic_rl/trainer.py:318-342 | The same for the attention mask. |
| `ArcticRepack.RepackMask` | integrations/arctic_rl/trainer.py:319-343 | The same for the response mask. |
| `ArcticRepack.RepackValues` | integrations/arctic_rl/trainer.py:322-355 | The same for each response-shaped tensor. |
| `ArcticRepack.LeftPadToSeq` | integrations/arctic_rl/trainer.py:379-394 | Left padding to full width; a tensor already that wide is returned itself. |
| `ArcticRepack.ColumnsOfNewIds` | integrations/arctic_rl/trainer.py:362-369 | The prompt columns hold the left-padded prompts, the response columns the right-padded responses. |
| `ArcticRepack.UpdateBatch` | integrations/arctic_rl/trainer.py:611-639 | Entry by entry: tokens, attention and positions of each row, its prompt ending and its response starting at one column; the two column blocks; the response mask, which is the loss mask; and each response tensor over the columns of its tokens. |
| `SplitBatch.SplitByModel` | skyrl/backends/skyrl_train_backend.py:160-213 | A one-model batch is left alone; otherwise an unknown model is refused, and there is one part per model in order of first appearance. |
| `SplitBatch.FirstAppearance` | skyrl/backends/skyrl_train_backend.py:188-195 | Of two models the one that appears first in the requests is listed first. |
| `SplitBatch.PartHomogeneous` | skyrl/backends/skyrl_train_backend.py:188-213 | A part holds exactly the rows of its model, in the order of the batch. |
| `SplitBatch.RequestKept` | skyrl/backends/skyrl_train_backend.py:195-202 | A request's rows reach its model's part unchanged, and requests keep their order. |
| `SplitBatch.PartsConserveRows` | skyrl/backends/skyrl_train_backend.py:188-213 | The parts together are exactly the rows of the batch, each as often as it was there. |
| `BatchPass.AlignReadsBack` | skyrl/backends/skyrl_train_backend.py:556-573 | Alignment loses nothing: dropping what the masks hide recovers the example, whatever the lengths of its RL fields: inputs and last target, weights, and each field under its own name. |
| `BatchPass.TableIffEven` | skyrl/backends/skyrl_train_backend.py:563-595 | The padded lists of a field make a tensor iff the field misses the response's length by the same amount in every row. |
| `BatchPass.ToTrainingBatch` | skyrl/backends/skyrl_train_backend.py:530-628 | The attended tokens of a row are its inputs and, if it has targets, the last of them; masks are zeros then ones, fields start level with the weights, and widths are the longest row's. Log-probabilities and advantages are there iff some row has any, values and returns only for critics; refused iff one of them cannot be built. |
| `BatchPass.AcceptsWhen` | skyrl/backends/skyrl_train_backend.py:587-612 | Which rows of one model a call can run, spelled out field by field for both roles and both kinds of call. |
| `BatchPass.DeservedByName` | skyrl/backends/skyrl_train_backend.py:757-779 | Worker and reporter are applied to a row's own tokens, weights and fields, the latter under the first loss and the first configuration of its model's rows. |
| `BatchPass.FirstConfigThere` | skyrl/backends/skyrl_train_backend.py:764-764 | The configuration used is the first that some row has, and none iff no row has one. |
| `BatchPass.PadRows` | skyrl/backends/skyrl_train/training_batch.py:495-549 | Padding appends copies of row 0 with zero loss mask up to a multiple of the alignment. |
| `BatchPass.ForwardSingle` | skyrl/backends/skyrl_train_backend.py:829-875 | One model's rows are answered iff there are any, the model is known and its tensors can be built, each failure under its own name; then each request gets the values of its own rows, under the key of the model's role. |
| `BatchPass.ForwardBackwardSingle` | skyrl/backends/skyrl_train_backend.py:737-814 | In training also the loss must fit the role, else it is named, and a critic needs values and returns for every response token; weightless padding is trimmed and each request gets what was reported on its own rows. |
| `MixedPass.Forward` | skyrl/backends/skyrl_train_backend.py:816-827 | A mixed batch is answered exactly when every model is known and its rows can run, and then every request gets the values of its own rows under the tensors that its model's rows carry in this batch, however they are padded. |
| `MixedPass.ForwardBackward` | skyrl/backends/skyrl_train_backend.py:724-735 | The same for training; and the models are trained in order up to the first whose rows cannot run. |
| `MixedPass.AnswerByName` | skyrl/backends/skyrl_train_backend.py:737-814 | Answer i of a request is what the worker or the reporter makes of that row's own tokens, weights and fields, under the first loss and configuration and with the tensors of its model's rows in the batch. |
| `MixedPass.AddedRequest` | skyrl/backends/skyrl_train_backend.py:160-213 | When a request joins a batch of several models that would be answered, all of it still is iff its model is known and its rows can run together with those already there of that model. |
| `MixedPass.EmptyRequestSinksMixedBatch` | skyrl/backends/skyrl_train_backend.py:816-827 | One request without data makes a call that mixes other models fail as a whole. |
| `MixedPass.RefusedCallHasTrained` | skyrl/backends/skyrl_train_backend.py:724-735 | A training call refused for its last model has by then trained all the others. |
| `MixedPass.PairServable` | skyrl/backends/skyrl_train_backend.py:587-595 | Two requests of one policy that are answered alone are answered together iff each tensor is carried by neither or misses the response's length equally in both. |
| `MixedPass.RaggedPairRefused` | skyrl/backends/skyrl_train_backend.py:587-595 | A request with log-probabilities and one without, each answered alone, are refused together. |
| `MixedPass.TrainedAsAlone` | skyrl/backends/skyrl_train_backend.py:737-814 | A training call answers a request as it would alone, whatever training reports, iff the request is empty or the other rows of its model change neither the first loss nor the first configuration nor the tensors present. |
| `MixedPass.ForwardedAsAlone` | skyrl/backends/skyrl_train_backend.py:829-875 | A forward call does so, whatever the worker, iff the request has no response tokens or the other rows of its model do not change the tensors present. |
| `MixedPass.TogetherAsAlone` | skyrl/backends/skyrl_train_backend.py:724-827 | Under those conditions the results of the mixed call and of the request's own call agree on it. |
| `MixedPass.LossIsShared` | skyrl/backends/skyrl_train_backend.py:757-765 | A request whose first loss is not that of its model's first row in the batch can be answered otherwise than alone. |
| `MixedPass.UniformIsUndisturbed` | skyrl/backends/skyrl_train_backend.py:757-765 | If all rows of a model use one loss and configuration and carry the same fields, its requests never disturb one another. |
| `MixedPass.ServedAlone` | skyrl/backends/skyrl_train_backend.py:696-750 | A request of an answered forward call would be answered alone too; one of an answered training call iff it is empty or its own first loss fits its model's role. |
| `StickyRoute.BaseClosedForm` | skyrl/backends/vllm_sampling.py:163-171 | After r allocations exactly the whole halves that did not fit are gone. |
| `StickyRoute.LivesExactly` | skyrl/backends/vllm_sampling.py:163-171 | Allocation j is still there after r allocations iff r <= 4096 + 2048 * (j / 2048). |
| `StickyRoute.LivesLong` | skyrl/backends/vllm_sampling.py:163-171 | An entry survives at least the 2048 allocations after its own. |
| `StickyRoute.SameHead` | skyrl/backends/vllm_sampling.py:146-152 | A prompt and an extension of it have the same key prefix iff the prompt is long enough or the extension is empty. |
| `StickyRoute.TwoPhasesMeet` | skyrl/backends/vllm_sampling.py:146-173 | Both phases of a request reach the same engine inside that window. |
| `StickyRoute.StaysPut` | skyrl/backends/vllm_sampling.py:146-173 | A prefix just allocated stays on its engine through the next 2048 allocations. |
| `StickyRoute.SharesEven` | skyrl/backends/vllm_sampling.py:163-164 | Each engine gets its even share of the allocations, the first ones the remainder. |
| `StickyRoute.SharesDiffer` | skyrl/backends/vllm_sampling.py:163-164 | Shares of any two engines differ by at most one. |
| `StickyRoute.SamplingClient.Slot` | skyrl/backends/vllm_sampling.py:160-172 | A known prefix returns its engine and changes nothing, a new one takes the next engine in turn; the table never exceeds 4096 entries. |
| `StickyRoute.SamplingClient.CompletionUrl` | skyrl/backends/vllm_sampling.py:121-173 | The URL in each routing mode: the base, the index round robin, or the engine of the prompt's prefix; only the last changes the table, and only for a new prefix. |
| `KvHeads.MakeAccepts` | skyrl/backends/lora_init.py:25-28 | The constructor accepts exactly positive sizes whose logical head count is a multiple of the native one, and keeps the three sizes. |
| `KvHeads.IndexInverse` | skyrl/backends/lora_init.py:35-39 | Head, copy and coordinate can be read back from a flat position. |
| `KvHeads.IndexOnto` | skyrl/backends/lora_init.py:35-39 | Every flat position is the position of its head, copy and coordinate. |
| `KvHeads.ReplicaAt` | skyrl/backends/lora_init.py:35-47 | Every copy of a head's coordinate in the replicated tensor is the native value. |
| `KvHeads.CollapseReplicate` | skyrl/backends/lora_init.py:41-47 | Collapsing a replication gives the native weights back. |
| `KvHeads.ExportedExactlyWhen` | skyrl/backends/lora_init.py:41-47 | A tensor is exported as w iff it is the replication of w, and has the wrong shape iff its length is not the replicated one. |
| `KvHeads.SumIsAdjoint` | skyrl/backends/lora_init.py:72-83 | Summing the copies is the exact adjoint of replication. |
| `KvHeads.TrainingRefinesNative` | skyrl/backends/lora_init.py:72-83 | Any run of element-wise optimizer steps with tied gradients is the native run, replicated, and exports to the native run's weights. |
| `KvHeads.NeverDiverges` | skyrl/backends/lora_init.py:49-59 | Weights and moments that start replica-equal stay so, so validation never fails. |
| `LoraMix.EffectiveProduct` | skyrl/backends/lora_mix.py:141-151 | The rank-2r effective product is gamma times the new product plus 1 - gamma times the old one. |
| `LoraMix.DirectionIsDerivative` | skyrl/backends/lora_mix.py:141-151 | The direction used in the chain rule is the derivative of the effective factor: the remainder is of second order. |
| `LoraMix.ChainRule` | skyrl/backends/lora_mix.py:154-178 | The split gradients of both factors and of gamma account for exactly what the effective-space gradients do, in every direction that leaves the old halves alone. |
| `LoraMix.SplitEntries` | skyrl/backends/lora_mix.py:154-178 | Entry by entry: the new half passes on its gradient, scaled by gamma in B, and the old half gets zero. |
| `LoraMix.OldHalfFrozen` | skyrl/backends/lora_mix.py:181-206 | Over any run of arbitrary optimizer updates the old half never changes and gamma stays in [0, 1]. |
| `LoraMix.MixAlongRun` | skyrl/backends/lora_mix.py:141-206 | At any point of a run the adapter is the mix of what was trained with the old adapter of the start. |
| `LoraMix.MixState.GammaStep` | skyrl/backends/lora_mix.py:196-206 | One optimizer step on the mixes: same keys, each clamped to [0, 1], nothing at all when there are none. |
| `LoraMix.MergePlainCheckpoint` | skyrl/backends/lora_mix.py:209-239 | Refuses differing keys, foreign leaves and wrong shapes, and otherwise puts the checkpoint's factor in the old half beside the template's new half of A or a zero new half of B. |
| `LoraMix.CarriedProduct` | skyrl/backends/lora_mix.py:231-236 | A carried adapter starts as 1 - gamma times the checkpoint's product, whatever the template's random factor. |
| `Renderer.CutOutAppend` | skyrl/backends/renderer.py:107-117 | Text appended after recorded ranges stays when the ranges are cut out. |
| `Renderer.AssembledConcat` | skyrl/backends/renderer.py:103-117 | A stream is assembled piece by piece, each piece from its own images. |
| `Renderer.Assemble` | skyrl/backends/renderer.py:103-117 | The assembled stream interleaves text and placeholders in order; ranges are ordered, disjoint, in bounds, recover their images, and cutting them out leaves the text-only rendering. |
| `Renderer.RenderImages` | skyrl/backends/renderer.py:151-178 | One placeholder per image of the expected length, or an error naming an image of another length. |
| `Renderer.RenderSingle` | skyrl/backends/renderer.py:95-124 | A whole input: it renders iff the endpoint's placeholders agree; range i then holds the tokens placeholder i covers in the endpoint's stream; without images its answer does not matter. |

## Left out

- ExternalDispatcherImpl.ExternalDispatcher.SweepOnce: the PENDING query's result is a parameter, the execute and the commit of a terminal write are one event, and the backoff between tries is part of the await before the next one.
- ExternalDispatchTiming.BoundedResolution: one clock stands for wall and monotonic time, sweeps are instantaneous, and a row left by an earlier process counts from the start of this one.
- ExternalDispatchSafety.OneLiveAttempt: assumes the API dispatches a request only once and not while the watchdog is reloading it, which is how its callers use it.
- Router.SummaryRouter.OrderedCandidates: upstreams are taken as distinct and standbys as disjoint from them, and the breaker's threshold as positive.
- Router.SummaryRouter.SwrrPick: the random fallbacks for a non-positive total and the equal-weight fallback are omitted because a rebuild never leaves them reachable.
- Router.RebuiltWeights: ratios are reals; the floating-point product with the scale is exact before it is rounded.
- Router.SummaryRouter.MarkErr: last status, last error and timestamps of the metrics are not kept, nor are in-flight counts, which enter only through the load-aware scores.
- RpcLockstep.CallsComplete: barriers and reads have no timeouts, JSON round trips are the identity, the two collectives of a broadcast are one, and the data-plane collectives of the methods themselves are not modelled.
- RpcModels.NextCreateDiverges: of a backend only the registry is modelled, the rest being arbitrary; the vLLM `sample` path, which process 0 also runs alone, is covered only by the protocol's local calls.
- RpcLockstep.ErrorsExact: messages are bytes; UTF-8 encoding and its replacement characters are not modelled, and traces are non-empty.
- The `__shutdown__` command, which workers accept but no coordinator code sends, and backend initialization after the INIT broadcast.
- MicroBatch.ModelPass: the ten arrays of a batch are one sequence of row records, sequence-length binning is the caller's, and the refusal of critic losses is omitted; counts are unbounded rather than 32-bit.
- AdapterSlots.Backend.OptimStep: the optimizer's update itself is not modelled, so nothing is said about isolation of parameters under weight decay.
- ArcticRepack.UpdateBatch: response tensors are filled one after the other instead of inside one row loop, prompt and response columns are copies rather than views, and the old log-probabilities are whatever tensor the server returned.
- BatchPass.ForwardSingle: the ten parallel lists are row records, images are omitted, and the worker answers whatever tensors it is given (a width of its own that it refuses is its business).
- BatchPass.ForwardBackwardSingle: metrics are omitted, and the renaming of the `ppo` loss and its thresholds is part of what the worker does with loss and configuration.
- StickyRoute.SamplingClient.CompletionUrl: the checksum of the prefix is an uninterpreted function, so colliding prefixes share an engine as in the code.
- KvHeads.TrainingRefinesNative: one row of the leading axes stands for all, other leaves of the tree pass through unchanged, and the gradient norm is not modelled.
- LoraMix.ChainRule: one layer stands for all; arithmetic is over the reals, and Adam is any function that keeps the keys.
- Renderer.RenderImages: multimodal kwargs and their decoding are omitted.
- The LoRA loading and unloading of the vLLM client, HTTP, storage and checkpoint formats: foreign calls around easy bookkeeping.
- The registry of the SkyRL-Train backend's create and delete: the critic-with-LoRA corner keeps no invariant worth stating.
