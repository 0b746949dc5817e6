# Adaptive traffic-signal simulator and simulation store, in Dafny

This project models the two pieces of logic in the traffic-light dashboard:

- **The mock simulation service** (`MockWebSocketService`). It stands in for the traffic
  backend. It drives a four-way intersection with a two-phase signal. Phase 1 gives north-south
  vehicles the green light, phase 2 gives it to east-west. Each tick it counts the tick, then
  either switches phase or advances eight queues. When the green budget of the current phase
  is used up, it switches phase and computes the new phase's budget from the vehicle queues.
  Otherwise the green directions are serviced, the red directions accumulate vehicles,
  pedestrians beside the red directions cross, and those beside the green directions wait.
  It also produces a traffic snapshot and a light-status view of its state.
- **The simulation slice of the store.** This is a record of UI state (current simulation,
  last light status, connection flag, loading flag, error). Its reducers assign fields of that
  record in place.

Files:

- `types.dfy` (module `Types`): the records exchanged between the service, the store and the
  display.
- `mock_simulation.dfy` (module `MockSimulation`): the simulator as values. It has the state
  record `SimState`, the queue updates, the adaptive green-time formula and one tick (`Tick`).
  It also has a run of many ticks (`Run`), the two snapshot projections, and the lemmas about
  them.
- `mock_web_socket.dfy` (module `MockWebSocket`): the class `MockWebSocketService`. Its methods
  update the fields in place. Each method is proved to leave the state that the matching
  `MockSimulation` function describes, and to keep the invariant `Inv`.
- `simulation_slice.dfy` (module `SimulationSlice`): the class `SimulationSliceState`, with one
  method per reducer case. Each method's `modifies` frame names exactly the fields its reducer
  assigns, so every other field provably keeps its value.

Nondeterminism is passed in explicitly:

- The clock becomes a parameter `now`, in milliseconds.
- Each `Math.random()` call becomes a sample `u: real`, supplied by the caller. Samples come in
  the order the service draws them. `RandomOutcome(u, rate)` is 1 exactly when `u < rate`.
  The rates are the service's own: 0.3 for vehicle arrivals, 0.5 for service, 0.1 for
  pedestrian arrivals.
- The green budget is a `real`, because it is a JavaScript number computed from a ratio.
- `Math.floor` of elapsed milliseconds over 1000 is Dafny's integer `/`. For a positive
  divisor, that is the floor.

### Behaviour worth knowing

- Only a red direction's vehicle queue is capped at 15. A green direction's queue is clamped
  only below, at 0, so it can pass 15: `ServicedQueueCanPassCapacity` reaches 16 vehicles north
  from the initial state. A red queue that already holds more than 15 vehicles is cut *down* to
  15, which drops vehicles from the count: `BlockedCount` ensures `count >= 15 ==> r == 15`.
  The invariant the model proves is therefore: vehicle queues are never negative, a red
  direction's queue is at most 15 after every queue update, and no queue grows by more than
  one per tick.
- The switch is checked first. On a switching tick no queue advances.
- The rates and green limits are hard-coded constants: 15 s, 45 s, 0.3, 0.5 and 0.1. The
  green-time ratio uses raw vehicle counts. Only the reported densities divide by 15.

## Model

| member | source | states |
|---|---|---|
| `MockSimulation.Initial` | src/services/mockWebSocket.ts:39-58 | the start state: phase 1, clock started at `now`, tick 0, vehicle queues 5/7/3/4, pedestrian queues 2/3/1/2, green budget 30 s; it satisfies the invariant, and every vehicle queue is within 15 |
| `MockSimulation.Other` | src/services/mockWebSocket.ts:138-139 | switching never keeps the same phase |
| `MockSimulation.ServicedCount` | src/services/mockWebSocket.ts:171-176 | a green direction's count is never negative and moves by at most one; an arrival without a service adds one vehicle, a service without an arrival removes one from a non-empty queue, and both or neither leave it unchanged; growth needs an arrival without a service, shrinking needs a service |
| `MockSimulation.BlockedCount` | src/services/mockWebSocket.ts:179-184 | a red direction's count is at most 15; below 15 an arrival adds one vehicle and no arrival leaves it unchanged; it grows only on an arrival and by at most one, and is cut to 15 from above it |
| `MockSimulation.WaitingPedestrians` | src/services/mockWebSocket.ts:219-224 | a waiting pedestrian queue is at most 8; below 8 an arrival adds one pedestrian and no arrival leaves it unchanged; it grows only on an arrival and by at most one |
| `MockSimulation.CrossingPedestrians` | src/services/mockWebSocket.ts:211-216 | a crossing pedestrian queue becomes 0 |
| `MockSimulation.AdvanceVehicles` | src/services/mockWebSocket.ts:164-203 | each direction is updated from its own samples (`ArrivalDraw`, `ServiceDraw`): a green direction as `ServicedCount`, a red one as `BlockedCount`; hence non-negative counts stay non-negative and grow by at most one, green ones drop by at most one, red ones end at most 15 |
| `MockSimulation.AdvancePedestrians` | src/services/mockWebSocket.ts:205-242 | beside red vehicle directions the pedestrian queues become 0; beside green ones each queue is updated from its own sample as `WaitingPedestrians`, ends at most 8, and grows by at most one |
| `MockSimulation.DrawsAreDistinct` | src/services/mockWebSocket.ts:164-242 | each sample of a tick drives one event only: no two directions share an arrival sample, no arrival sample is a service sample, and the two waiting pedestrian queues use different samples |
| `MockSimulation.NextGreenDuration` | src/services/mockWebSocket.ts:143-159 | the new budget lies in [15, 45]; it is exactly 15 when no vehicle is queued |
| `MockSimulation.GreenProportional` | src/services/mockWebSocket.ts:150-156 | with vehicles queued, (budget − 15) × total queued = 30 × the new phase's queued vehicles: the budget is proportional to the phase's share and the clamp never cuts it |
| `MockSimulation.GreenBudgetsSplit` | src/services/mockWebSocket.ts:150-156 | the two phases' budgets, computed from the same queues, add up to 60 s |
| `MockSimulation.HeavierPhaseLongerGreen` | src/services/mockWebSocket.ts:150-156 | a phase gets at least 30 s exactly when it holds at least half of the queued vehicles |
| `MockSimulation.GreenDurationMonotone` | src/services/mockWebSocket.ts:150-156 | a larger share of queued vehicles never earns a shorter green |
| `MockSimulation.AfterSwitch` | src/services/mockWebSocket.ts:136-162 | a switch flips the phase, restarts its clock at `now`, sets a budget in [15, 45] computed from the queues, and leaves queues and tick count alone |
| `MockSimulation.Tick` | src/services/mockWebSocket.ts:121-134 | the tick count rises by exactly 1; the phase changes iff elapsed seconds ≥ budget; a switching tick restarts the clock, recomputes the budget and leaves all eight queues unchanged; any other tick keeps the phase, clock and budget and advances the queues; the invariant is preserved |
| `MockSimulation.RunCountsTicks` | src/services/mockWebSocket.ts:121-134 | over any sequence of ticks the tick count rises by exactly the number of ticks, switching or not |
| `MockSimulation.RunKeepsInvariant` | src/services/mockWebSocket.ts:121-134 | over any sequence of ticks the invariant holds (vehicles ≥ 0, pedestrians in [0, 8], budget in [15, 45]), and no vehicle queue grows by more than the number of ticks |
| `MockSimulation.RunWithinGreenKeepsSignal` | src/services/mockWebSocket.ts:121-134 | a run whose ticks all come before the budget is used up keeps the phase, its start time and its budget |
| `MockSimulation.GreenQueueDrains` | src/services/mockWebSocket.ts:171-176 | within one green, a green queue served on every tick with no arrivals holds max(0, c − k) vehicles after k ticks |
| `MockSimulation.GreenQueueGrows` | src/services/mockWebSocket.ts:171-176 | within one green, a green queue with an arrival and no service on every tick holds c + k vehicles after k ticks, without an upper bound |
| `MockSimulation.RedQueueFills` | src/services/mockWebSocket.ts:179-184 | within one green, a red queue holding at most 15 with an arrival on every tick holds min(15, c + k) vehicles after k ticks |
| `MockSimulation.ServicedQueueCanPassCapacity` | src/services/mockWebSocket.ts:171-176 | from the initial state, eleven ticks within the first 30-second green, each with an arrival north and no service, leave 16 vehicles north: green queues have no upper clamp |
| `MockSimulation.CurrentGreenTime` | src/services/mockWebSocket.ts:275 | whole seconds of green so far: the floor of elapsed milliseconds over 1000 |
| `MockSimulation.GenerateTrafficState` | src/services/mockWebSocket.ts:254-272 | the snapshot reports the tick, phase, budget and all eight counts of the state; its green time is the floor of elapsed seconds; each density × 15 is the phase's vehicle count |
| `MockSimulation.GenerateTrafficLights` | src/services/mockWebSocket.ts:274-298 | the green phase's directions show GREEN and the others RED; pedestrians cross exactly where the light is RED; the remaining time is ≥ 0, is positive iff whole seconds elapsed < budget, and then adds up with them to the budget; all countdown fields agree; green time and densities agree with the snapshot |
| `MockSimulation.OneGreenOneRed` | src/services/mockWebSocket.ts:282-291 | exactly one of north-south and east-west is GREEN and the other RED; no light is YELLOW |
| `MockSimulation.CountdownPositiveAfterTick` | src/services/mockWebSocket.ts:275-276 | read at the clock value of the tick, the remaining green time after a tick is positive |
| `MockSimulation.CrossingQueuesEmptyAfterTick` | src/services/mockWebSocket.ts:282-291 | after a tick that advanced the queues, every direction shown a pedestrian crossing has an empty pedestrian queue |
| `MockWebSocket.MockWebSocketService.constructor` | src/services/mockWebSocket.ts:39-58 | the new object holds `Initial(now)` and is valid |
| `MockWebSocket.MockWebSocketService.UpdateSimulation` | src/services/mockWebSocket.ts:121-134 | updating in place leaves exactly `Tick(old state, now, draws)` and keeps the invariant |
| `MockWebSocket.MockWebSocketService.SwitchPhase` | src/services/mockWebSocket.ts:136-162 | changes only phase, clock and budget, to `AfterSwitch(old state, now)`, and keeps the invariant |
| `MockWebSocket.MockWebSocketService.UpdateVehicleQueues` | src/services/mockWebSocket.ts:164-203 | changes only the vehicle queues, to `AdvanceVehicles` of the old ones, and keeps the invariant |
| `MockWebSocket.MockWebSocketService.UpdatePedestrianQueues` | src/services/mockWebSocket.ts:205-242 | changes only the pedestrian queues, to `AdvancePedestrians` of the old ones, and keeps the invariant |
| `SimulationSlice.Merge` | src/store/slices/simulationSlice.ts:76-80 | each field present in the partial payload overwrites the current one; each absent field keeps its value |
| `SimulationSlice.MergeIdempotent` | src/store/slices/simulationSlice.ts:76-80 | merging the same partial payload twice equals merging it once |
| `SimulationSlice.RejectionMessage` | src/store/slices/simulationSlice.ts:94-97 | the error is the thrown message when it is a non-empty string, and otherwise the fixed default |
| `SimulationSlice.SimulationSliceState.constructor` | src/store/slices/simulationSlice.ts:12-18 | no simulation, no lights, disconnected, not loading, no error |
| `SimulationSlice.SimulationSliceState.SetTrafficState` | src/store/slices/simulationSlice.ts:57-62 | no change without a simulation; otherwise stores the snapshot and its time step in it, and changes nothing else |
| `SimulationSlice.SimulationSliceState.SetTrafficLights` | src/store/slices/simulationSlice.ts:63-65 | only the light status changes, to the payload |
| `SimulationSlice.SimulationSliceState.SetConnectionStatus` | src/store/slices/simulationSlice.ts:66-68 | only the connection flag changes, to the payload |
| `SimulationSlice.SimulationSliceState.ClearError` | src/store/slices/simulationSlice.ts:69-71 | only the error changes, to none |
| `SimulationSlice.SimulationSliceState.UpdateSimulationStatus` | src/store/slices/simulationSlice.ts:72-82 | no change without a simulation; otherwise the simulation becomes `Merge` of it with the payload |
| `SimulationSlice.SimulationSliceState.CreateSimulationPending` | src/store/slices/simulationSlice.ts:86-89 | loading, error cleared, nothing else changes |
| `SimulationSlice.SimulationSliceState.CreateSimulationFulfilled` | src/store/slices/simulationSlice.ts:90-93 | only the loading flag changes, to false |
| `SimulationSlice.SimulationSliceState.CreateSimulationRejected` | src/store/slices/simulationSlice.ts:94-97 | not loading; the error is the message or "Failed to create simulation" |
| `SimulationSlice.SimulationSliceState.StartSimulationPending` | src/store/slices/simulationSlice.ts:98-101 | loading, error cleared, nothing else changes |
| `SimulationSlice.SimulationSliceState.StartSimulationFulfilled` | src/store/slices/simulationSlice.ts:102-107 | not loading; an existing simulation's status becomes RUNNING, with its other fields kept |
| `SimulationSlice.SimulationSliceState.StartSimulationRejected` | src/store/slices/simulationSlice.ts:108-111 | not loading; the error is the message or "Failed to start simulation" |
| `SimulationSlice.SimulationSliceState.StopSimulationFulfilled` | src/store/slices/simulationSlice.ts:112-116 | an existing simulation's status becomes IDLE; nothing else changes, the loading flag included |
| `SimulationSlice.SimulationSliceState.GetSimulationStatusFulfilled` | src/store/slices/simulationSlice.ts:117-119 | the current simulation becomes the response data, which may be missing |

## Left out

- Timers and transport are not modelled: `connect`, `disconnect`, `subscribeToSimulation`,
  `unsubscribeFromSimulation`, `isConnected`, the `isActive` and `updateInterval` fields,
  `setInterval`/`setTimeout`, `store.dispatch` and logging. The constructor's delayed
  connection dispatch is left out too. One tick is modelled as `UpdateSimulation`.
- The clock is read once per tick. On a switching tick the service reads `Date.now()` twice:
  once for the elapsed time and once for the new phase start. The two readings can differ by a
  few milliseconds. The model uses a single `now` for both.
- Probabilities are not modelled. Each random draw is a caller-supplied sample, so the model
  says nothing about how often arrivals or services happen.
- ISO timestamp strings are dropped from the snapshot and the light status.
- JavaScript numbers are IEEE doubles; the model uses exact reals and unbounded integers.
  Rounding in the green-time ratio and the densities is not captured.
- The asynchronous thunks' API calls are not modelled. Neither are the `dashboardSlice`, the
  store wiring, `websocket.ts`, `api.ts` or any user-interface component.
- Actions the slice has no case for are not modelled: stop pending and rejected, and status
  pending and rejected. They leave the state as it is.
- `SimulationSlice.Merge`: a key present in the payload with the value `undefined` would
  overwrite with `undefined` under the object spread. The model treats a present field as
  `Some`, and that case is not captured.
- The configurable rates, weights and validation ranges in `src/types/simulation.ts` are not
  modelled. The service never reads them and uses its own constants.
