# A verified model of the self-adaptive robot kitchen

The kitchen is a production line of four kinds of agents. The kitchen places orders, the controller names a
robot for the next steps of a recipe and adapts the robots, the robots cook, and a conveyor carries dishes from
robot to robot and to the output. Agents call each other and run their decisions as handlers on an event loop.
Their OPC UA servers keep their nodes in an open-addressing hash map. This project models the handlers and
proves what the agents guarantee on every run, by themselves and together.

## Structure

Each component has a state, one function for each handler and each answered call, an invariant, and lemmas for
whole runs. The agents change their fields in place; a class shows this form, loops included, and every method is
proved to do what the handler's function says. What is proved about the functions therefore holds for the classes.

| files | component |
|---|---|
| Basics | what all share |
| Probing, NodeMap | the node store: probe sequence, hash map with tombstones, growth and shrinking |
| Recipes | recipe costs, and the loop that totals a recipe |
| Robot, RobotInvariant, RobotSteps, RobotRuns | a robot: handlers, invariant, every step, every run |
| RobotFifo, RobotLegs, RobotProgress, RobotCompletion | its backlog of dishes, its moves and reconfigurations, progress and failures, adaptations that complete |
| RobotDoubleCommit, RobotJourney | what a second commit of a move does; the states of one robot that cooks and moves |
| RobotAgent | the robot as a class |
| Controller, ControllerAgent | the registry and the pending swaps, as functions and as a class |
| SwapProtocol, SwapSteps, SwapRequests, SwapCompletion, SwapTheorems | position swaps between controller and robots: every step |
| SwapNetwork, SwapLosses | the same with connections that are lost at any time: every run; what a lost call does to the registry |
| SwapProgress, SwapLimits | which swaps finish, and that what the protocol relies on is exactly what it needs |
| SwapAccidents, SwapMisread | runs from the start that strand a swap, stop the controller, or go against what the protocol relies on |
| Conveyor, ConveyorInvariant, ConveyorSteps, ConveyorRuns, ConveyorAgent | the conveyor |
| ConveyorRequests | its requests for the next robot, and the answers |
| RobotIndex, RobotIndexRuns, RobotIndexExchanges | the maps from positions to robots that conveyor and kitchen keep |
| Kitchen | placing gate and order counters |
| Plant, PlantInvariant, PlantSteps, PlantRuns, PlantTheorems | all robots, the conveyor and the kitchen together |
| PlantNotices, PlantVisits, PlantLimits | notifications and robots that wait in vain, the number of visits, an accident |
| PlantIndex, PlantProtocol | the plant with the conveyor's map of robots, and in one run with the controller and its swaps |
| PlantOrders | the plant in one run with the kitchen's gate and counters |

The central statements are, for every run:

- Swaps: registered robots that do not await a commit are at pairwise distinct positions, and a task is accepted
  by nobody but the robot that is filed under the addressed position, whichever calls and connections get lost
  (`SwapNetwork`). A connected robot is handed out exactly while it is neither swapping nor reconfiguring, and a robot to
  which a call got lost leaves the registry (`SwapLosses`). Swaps finish, with one exception that is known exactly
  (`SwapProgress.SwapsCompleteExactly`).
- Robots: the published load is the remaining work, to the tick, and dishes leave in the order in which they came
  with the maximal stretch of their recipe done (`RobotRuns`, `RobotFifo`); an adaptation completes within a number of
  steps that can be read off the robot's state (`RobotCompletion`). Which calls a robot accepts is known exactly
  (`RobotLegs`).
- Conveyor: it waits for exactly one thing while it moves and for nothing while it idles (`ConveyorSteps`), and an answer
  is taken for a request only if it is about the same recipe; when answers are rejected is known exactly
  (`ConveyorRequests`). A dish is offered where the controller said, within a turn (`ConveyorRuns.NamedRobotIsOffered`).
- Kitchen: the gate lets waiting orders through in turn, one with each expiry of its timer (`Kitchen.PlacedInTurn`).
- Plant: no dish is lost or duplicated, whichever calls fail, unless one is put on another one, and when that happens
  is known exactly (`PlantRuns`, `PlantNotices`, `PlantIndex`); dishes visit robots at most as often as they have steps
  (`PlantVisits`). Controller, robots, conveyor and its map of robots are also proved safe in one joint run
  (`PlantProtocol.WholePlantIsSafe`), and every order is accounted for from the gate to the output
  (`PlantOrders.OrdersAreAccounted`).
- Node store: it is a finite map (`NodeMap`).

## What is assumed

- A handler is one step, and so is a call together with its reply. A call that fails was not executed. In `Plant`
  a conveyor handler is cut at its calls to robots and to the kitchen, and robots go on in between.
- An event loop is a queue: an expired timer appends its handler behind the tasks that were posted before. The
  code relies on this: a robot handles the request to move before the travel timer it may have armed already, so it
  stores the target before it arrives (`robot/src/robot.cpp:842-847`, `:861-890`).
- Durations are at least 1 and below 2^64, every recipe has an action, and 0 is not a recipe.
- Callers name known recipes and an open step of them. `PlantTheorems.RobotsRunOnTheirOwn` shows that kitchen and
  conveyor do.
- A move is committed at most once; `RobotDoubleCommit` says exactly what a second commit does.
- `SwapNetwork.Reliable`: the policy requests no swap and no reconfiguration while a notification of a lost connection
  is queued that would be taken for an answer to it, and a robot that registers has settled, or awaits a commit, or its
  commit is queued and it is not told to commit again. These conditions are exact: after a swap or a reconfiguration
  that the robots agree to, or an accepted registration, whatever the controller hands out from then on is real if and
  only if the condition held (`SwapLimits`). For each of the three there is also a run from the start on which a position
  is handed out where the robot is not (`SwapAccidents.StaleRun`, `SwapMisread.MisreadRun`,
  `SwapAccidents.TravellerRun`). The robot itself registers only while it is available or its commit is pending
  (`robot/src/robot.cpp:1161-1166`), which leaves one case open: a commit that is queued while the connection to the
  controller is lost and made again. Connections are lost at any time, and robots may hang. The controller is not
  restarted.
- The controller answers the conveyor's requests in order. `ConveyorRequests` says what holds when requests made before
  a reconnection are answered too.
- Whom the conveyor calls is arbitrary in `Plant`. Where a statement relies on it being the robot that has sent the
  notification, it says so (`PlantNotices.CallsNotifier`). `PlantIndex` proves this of the conveyor's own map while the
  connections of the robots whose dishes wait last, answers and notifications name no other robot at their positions,
  and no robot repeats a notification. In the joint run of `PlantProtocol` that no notification comes from the position
  of another waiting robot follows from the swap protocol, if robots whose dishes wait are registered. That answers name
  no other robot there remains an assumption: the controller's answer may be handled after the robot it names has left.
- A registration carries the position and the capabilities that were read when it was posted
  (`controller/src/controller.cpp:123-143`); the model reads them when the handler runs. They differ only if the robot has
  adapted in between, on a request that was handled while the registration was queued. The notification of that
  adaptation is queued behind the registration, so the robot or its swap is still in the controller's books, and the
  registration is refused with either value. Only if the older connection is lost in the same interval may it be
  accepted with the old values; this is left out.
- For the map of robots: a position takes part in a new swap, or gets a new robot, only after the reports of the
  previous swap there have been handled.
- The entries of the table of sizes are prime, addresses have 64 bits, and at most 2^28 nodes are stored, so that
  the table of sizes suffices and the start value of the id choice does not wrap.

## What was found

- A robot hangs exactly when a reconfiguration completes while an order is queued and no dish is prepared:
  re-queueing the order locks a mutex that is already held (`RobotRuns.RunKeeps`). An order accepted just before a
  reconfiguration does it (`RobotProgress.DeadlockReachable`).
- A swap whose robot is lost after the other one's acknowledgement has been handled, and before it has reported
  anything itself, stays pending: the loss is recorded as an acknowledgement, but nothing completes the swap. The other
  robot waits for its commit as long as its connection lasts (`SwapProgress.StuckForEver`,
  `SwapAccidents.StrandedRun`). All other swaps finish, whatever else is lost (`SwapProgress.SwapsCompleteExactly`).
  Safety holds in both cases.
- A notification of a lost connection that is still queued is taken for the acknowledgement of whoever is sent between
  the same positions next: that robot is released while it travels, and work is handed out for a position where it is
  not (`SwapAccidents.StaleRun`). Whenever a swap is requested over such a notification this can happen
  (`SwapLimits.ConfusedSwapFails`), and the same goes for reconfigurations (`SwapLimits.MistakenEndFails`).
- When fetching a dish fails, or the conveyor cannot connect to a robot that has notified it, the notification is
  dropped, and the robot waits with all its dishes until it finds the conveyor again and repeats its notification
  (`PlantNotices.StrandedExactly`, `robot/src/robot.cpp:1203-1225`). No dish is lost or duplicated by this.
- A repeated notification that arrives in addition to the first one can make the conveyor put a dish on an occupied
  plate: the robot has gone on to another position, the report of its move has not been handled yet, and only the plate at
  the old position is checked (`PlantLimits.OverwritingRun`, `conveyor/src/conveyor.cpp:217`, `:309`). Without repeated
  notifications this does not happen (`PlantIndex.IndexedPlantConserves`).
- Requests that the conveyor gives up at a reconnection are still in the controller's queue, and are answered first. No
  answer is rejected if and only if the recipes it asks for again are what the old requests' recipes, followed by the new
  ones, begin with (`ConveyorRequests.ReconnectionMatchesExactly`); asking for the same dishes in the same order is
  enough, asking for them in another order is not (`ConveyorRequests.LateAnswerMismatches`). Only recipes are compared:
  an old answer for a dish of the same recipe with other steps done is taken. The belt does not stall
  (`ConveyorRequests.NeverStalls`).
- The branches in the swap request that are called inconsistent can be entered, but only for a target that is not
  on the belt (`SwapRequests.SwapStopsExactly`); then the controller stops (`SwapAccidents.StopRun`).
- `commit_new_position` accepts a second commit of the same move. It is harmless only when no dish is at the robot;
  otherwise the robot loses track of one, and with two dishes waiting, or one and another order, the robot stops
  (`RobotDoubleCommit.SecondCommitHarmlessExactly`, `RobotDoubleCommit.SecondCommitAbortsExactly`).

## Model

| member | source | states |
|---|---|---|
| Probing.ProbeVisitsEverySlotOnce | deps/open62541-1.4.7/plugins/ua_nodestore_hashmap.c:64-65 | for every prime size above 2 and every hash, the first `size` probes visit every slot, no slot twice, and the next one is back at the start |
| Probing.WalkReturns | deps/open62541-1.4.7/plugins/ua_nodestore_hashmap.c:108-111 | both search loops end: after `size` rounds the index is the start index |
| Probing.WalkReaches | deps/open62541-1.4.7/plugins/ua_nodestore_hashmap.c:229-232 | every slot is reached by some round below `size` |
| NodeMap.HigherPrimeIndex | deps/open62541-1.4.7/plugins/ua_nodestore_hashmap.c:67-79 | the binary search finds the smallest table size that is at least `n`, or the end of the table |
| NodeMap.SearchExhausted | deps/open62541-1.4.7/plugins/ua_nodestore_hashmap.c:218-234 | a search that meets an unused slot, or comes back to its start, proves that the id is not stored |
| NodeMap.StoreKeepsTable | deps/open62541-1.4.7/plugins/ua_nodestore_hashmap.c:91-113 | storing in the first free slot of the probe path keeps the invariant that no unused slot precedes a live entry on its path, tombstones or not |
| NodeMap.TombstoneKeepsTable | deps/open62541-1.4.7/plugins/ua_nodestore_hashmap.c:319-321 | removal by tombstone keeps every other entry findable |
| NodeMap.StoredCount | deps/open62541-1.4.7/plugins/ua_nodestore_hashmap.c:418-422 | the number of stored ids is the number of live slots |
| NodeMap.RemoveEffect | deps/open62541-1.4.7/plugins/ua_nodestore_hashmap.c:312-323 | on the finite map, removal deletes exactly that id and unlinks exactly its entry |
| NodeMap.InsertEffect | deps/open62541-1.4.7/plugins/ua_nodestore_hashmap.c:418-424 | on the finite map, insertion adds exactly that id, whatever tombstone or free slot it lands in |
| NodeMap.ReplaceEffect | deps/open62541-1.4.7/plugins/ua_nodestore_hashmap.c:445-449 | on the finite map, replacement changes exactly that id and unlinks the entry it replaces |
| NodeMap.MovedAll | deps/open62541-1.4.7/plugins/ua_nodestore_hashmap.c:137-145 | a rehash that stops early, after as many entries as were stored, has moved all of them |
| NodeMap.LargeEnough | deps/open62541-1.4.7/plugins/ua_nodestore_hashmap.c:127-128 | the new size is prime, above 2 and exceeds twice the count, so the assertion in the rehash never fails |
| NodeMap.AllTaken | deps/open62541-1.4.7/plugins/ua_nodestore_hashmap.c:348-354 | if a whole turn of candidate ids were taken, the table would be full: the choice of an id cannot come back to its start |
| NodeMap.NodeStore.constructor | deps/open62541-1.4.7/plugins/ua_nodestore_hashmap.c:502-534 | the new store is the empty map |
| NodeMap.NodeStore.CountIsLiveSlots | deps/open62541-1.4.7/plugins/ua_nodestore_hashmap.c:323-325 | `count` is the number of live slots and the size of the map |
| NodeMap.NodeStore.FindOccupiedSlot | deps/open62541-1.4.7/plugins/ua_nodestore_hashmap.c:210-235 | finds an id exactly when it is stored, and its only slot |
| NodeMap.NodeStore.FindFreeSlot | deps/open62541-1.4.7/plugins/ua_nodestore_hashmap.c:81-114 | finds a place exactly for ids that are not stored while the table is not full, the first one that is not live on the probe path |
| NodeMap.NodeStore.Expand | deps/open62541-1.4.7/plugins/ua_nodestore_hashmap.c:116-149 | growing and shrinking keep the map and its count; the table is replaced exactly if it is half full or nearly empty, by the smallest one that is large enough, which has no tombstones and is more than twice as large as the count |
| NodeMap.NodeStore.Rehash | deps/open62541-1.4.7/plugins/ua_nodestore_hashmap.c:137-145 | the rehash loop rebuilds the same map in the new table |
| NodeMap.NodeStore.NewNode | deps/open62541-1.4.7/plugins/ua_nodestore_hashmap.c:151-187 | a new entry is nobody else's and not stored |
| NodeMap.NodeStore.DeleteNode | deps/open62541-1.4.7/plugins/ua_nodestore_hashmap.c:249-254 | deleting an entry that is not stored leaves the map alone |
| NodeMap.NodeStore.GetNode | deps/open62541-1.4.7/plugins/ua_nodestore_hashmap.c:256-267 | returns the stored entry exactly when the id is stored, with one more reference, and changes nothing else |
| NodeMap.NodeStore.ReleaseNode | deps/open62541-1.4.7/plugins/ua_nodestore_hashmap.c:280-289 | frees the entry exactly when the last reference to a deleted entry goes; every other entry is untouched |
| NodeMap.NodeStore.GetNodeCopy | deps/open62541-1.4.7/plugins/ua_nodestore_hashmap.c:291-310 | the copy remembers the entry it was made from |
| NodeMap.NodeStore.RemoveNode | deps/open62541-1.4.7/plugins/ua_nodestore_hashmap.c:312-328 | implements map removal; the table shrinks exactly if it is left less than an eighth full; a referenced entry stays allocated |
| NodeMap.NodeStore.ReplaceNode | deps/open62541-1.4.7/plugins/ua_nodestore_hashmap.c:426-450 | succeeds exactly when the address the copy was made from is the one stored under its id; otherwise the new entry is freed and the map unchanged |
| NodeMap.NodeStore.ChooseId | deps/open62541-1.4.7/plugins/ua_nodestore_hashmap.c:346-377 | the automatic choice always ends with an id of the namespace that is not stored, and a slot for it |
| NodeMap.NodeStore.InsertNode | deps/open62541-1.4.7/plugins/ua_nodestore_hashmap.c:334-424 | implements map insertion; the table grows exactly if it is three quarters full; an id is chosen from 50001 plus the table size on; fails exactly for an explicit id that is stored, and frees the node then |
| Recipes.ParseRecipe | recipe/src/recipe_parser.cpp:44-86 | accepts a recipe exactly when every instruction names a known action, has a duration exactly if that action is timed by the recipe, and lists its ingredients; otherwise reports what the first unacceptable one is rejected for. Every action has the name and the ingredients of its instruction, the tool of the known action, and the duration of whichever of the two has one; the totals are the sum of the durations and the retooling time, and with the retooling for the first action they are the cost of the queue for every starting tool |
| Recipes.RetoolingsCounted | recipe/src/recipe_parser.cpp:80-83 | the retooling time is paid once for every change of tools |
| Recipes.RecipeTotals | recipe/src/recipe_parser.cpp:79-84 | the cost of a recipe from any tool is its cooking time plus its retooling time, plus one retooling if the first tool is not in hand |
| Recipes.CostSplit | robot/src/robot.cpp:421-428 | costs of consecutive stretches add up when the tool is handed from one to the next |
| Recipes.SplitRecipe | robot/src/robot.cpp:421-428 | however a recipe is split over robots, the sum of their costs differs from one robot's cost only by the retoolings at the split points |
| RobotSteps.EnqueueKeeps | robot/src/robot.cpp:343-345 | costing an order on arrival keeps the published load equal to the remaining work |
| RobotSteps.TickKeeps | robot/src/robot.cpp:719-744 | paying off a tick keeps the published load equal to the remaining work |
| RobotSteps.RecostKeeps | robot/src/robot.cpp:1052-1061 | costing all queued orders again under new capabilities gives the load of the same dishes in the same order |
| RobotSteps.ReconfigureKeeps | robot/src/robot.cpp:1040-1069 | a completed reconfiguration keeps the invariant unless it hangs |
| RobotRuns.InitialKeeps | robot/src/robot.cpp:21-24 | a robot that has just started satisfies the invariant |
| RobotRuns.StepKeeps | robot/src/robot.cpp:268-1069 | every handler and call keeps: one continuation at a time, OVERALL_TIME equal to the remaining work, LAST_EQUIPPED_TOOL the last tool of that work, processed steps plus remaining actions equal to the recipe, adaptations never lost; the only exception is the step that hangs, and exactly that one |
| RobotRuns.RunKeeps | robot/src/robot.cpp:268-1069 | the same for whole runs: a robot fails if and only if some reconfiguration completes with an order queued and no dish in preparation, and it hangs then |
| RobotFifo.StepBacklog | robot/src/robot.cpp:345-524 | every step appends the accepted dish to the back of the backlog and takes the dish that is handed over from its front |
| RobotFifo.RunIsFifo | robot/src/robot.cpp:345-524 | first in, first out, over whole runs, also across reconfigurations and moves |
| RobotFifo.HandoverReports | robot/src/robot.cpp:458-524 | a handed-over dish has seen the maximal stretch of its recipe that the robot is capable of, and is called finished exactly when no step is left |
| RobotFifo.HandedOverOnce | robot/src/robot.cpp:458-524 | a dish is handed over once: afterwards nothing of it is published, the next order is due, and whoever asks again gets nothing |
| RobotLegs.StepAdvances | robot/src/robot.cpp:835-957 | a robot that was asked to move keeps heading for that very position until it is there, stays there until the commit, and is available again only after it; nothing a robot does by itself, and no dish, loses or overtakes an adaptation |
| RobotLegs.SwitchLeg | robot/src/robot.cpp:835-851 | a settled robot accepts a move to every other position on the belt |
| RobotLegs.CommitLeg | robot/src/robot.cpp:892-941 | an arrived robot accepts its commit |
| RobotLegs.ReconfigureLeg | robot/src/robot.cpp:998-1013 | an accepted reconfiguration makes a settled robot reconfigure and nothing else |
| RobotLegs.LegAvailable | robot/src/robot.cpp:295-302 | AVAILABILITY is published exactly while no adaptation is under way |
| RobotLegs.TaskTakenExactly | robot/src/robot.cpp:295-312 | a robot takes a dish, begun elsewhere or not, exactly when it has settled, is addressed where it is, and is capable of the very step that comes next; it then queues it behind everything else, and otherwise nothing changes |
| RobotLegs.CallsTakenExactly | robot/src/robot.cpp:797-1021 | exactly which moves, commits and reconfigurations a robot accepts, what it is then about to do, and that a refused call changes nothing |
| RobotLegs.RefitTool | robot/src/robot.cpp:1048-1048 | a completed reconfiguration leaves the robot with the tool that was picked |
| RobotProgress.IdleOwesNothing | robot/src/robot.cpp:365-368 | an idle robot publishes a load of 0 and its current tool |
| RobotProgress.NeverUnderflows | robot/src/robot.cpp:719-794 | while the load fits 32 bits the published number is the load, and no payment makes it wrap |
| RobotProgress.AdaptationPending | robot/src/robot.cpp:351-371 | while a robot rearranges or reconfigures, a queued task, a timer, a pickup or an awaited commit will drive it on |
| RobotProgress.VisitsGain | robot/src/robot.cpp:303-312 | while no reconfiguration takes effect, every visit that ends has done at least one step |
| RobotProgress.DeadlockReachable | robot/src/robot.cpp:1044-1061 | every idle robot can be made to hang, by an order accepted just before a reconfiguration |
| RobotDoubleCommit.SecondCommitHarmlessExactly | robot/src/robot.cpp:892-957 | a second commit of the same move is accepted, and it is harmless if and only if no dish is at the robot |
| RobotDoubleCommit.SecondCommitAbortsExactly | robot/src/robot.cpp:892-957 | while the robot is capable of every waiting dish, a second commit stops it if and only if two dishes wait; with a single one, the next accepted order does |
| RobotDoubleCommit.DoubleCommitAborts | robot/src/robot.cpp:268-957 | a run from the start that stops the robot, for every recipe and every move: its only step that a caller must not make is the second commit |
| RobotCompletion.StepShrinks | robot/src/robot.cpp:351-371 | every effective step of an adapting robot completes the adaptation or shrinks a number read off its state, and nothing else that may happen changes the robot at all |
| RobotCompletion.AdaptationCompletes | robot/src/robot.cpp:835-1069 | an accepted adaptation completes within that many effective steps, whatever else happens: a move at exactly the position that was asked for, a reconfiguration or a commit with an available robot; only a robot that hangs does not get there |
| RobotCompletion.ReconfigurationTakesEffect | robot/src/robot.cpp:959-1069 | from an accepted request on, the first state in which the robot is available again has exactly the capabilities that were asked for, and all waiting orders are costed under them |
| RobotCompletion.ReceiveShrinks | robot/src/robot.cpp:345-363 | a task that was accepted before the adaptation and is handled during it is only queued: the dish in process stays, the one timer it may start is the adaptation's own, which no other step has started, and the robot is closer to completion |
| RobotAgent.Agent.constructor | robot/src/robot.cpp:21-24 | starts in the initial state |
| RobotAgent.Agent.StartMove | robot/src/robot.cpp:861-879 | a move is started once |
| RobotAgent.Agent.StartReconfiguring | robot/src/robot.cpp:1023-1038 | a reconfiguration is started once |
| RobotAgent.Agent.NextAction | robot/src/robot.cpp:539-681 | hands the dish over, retools or performs, as the specification of the step says |
| RobotAgent.Agent.CookNextOrder | robot/src/robot.cpp:351-404 | adapts before it takes the oldest order |
| RobotAgent.Agent.ComputeOverallTime | robot/src/robot.cpp:406-434 | the loop adds the cost of exactly the leading actions the robot is capable of, chained from the last queued tool, modulo 2^32 |
| RobotAgent.Agent.EnqueueOrder | robot/src/robot.cpp:335-345 | the order goes to the back with its load added |
| RobotAgent.Agent.OnReceiveTask | robot/src/robot.cpp:328-349 | refines the handler that all robot theorems are about |
| RobotAgent.Agent.OnActionPerformed | robot/src/robot.cpp:746-775 | refines the handler |
| RobotAgent.Agent.OnPassTime | robot/src/robot.cpp:719-744 | refines the handler, including both wrap-arounds |
| RobotAgent.Agent.OnRetool | robot/src/robot.cpp:777-794 | refines the handler |
| RobotAgent.Agent.OnArrival | robot/src/robot.cpp:881-890 | refines the handler |
| RobotAgent.Agent.OnCommit | robot/src/robot.cpp:943-957 | refines the handler |
| RobotAgent.Agent.Requeue | robot/src/robot.cpp:1052-1061 | the loop costs every order again in its place, and hangs exactly when an order is queued while no dish is prepared |
| RobotAgent.Agent.OnReconfigured | robot/src/robot.cpp:1040-1069 | refines the handler, hanging included |
| RobotAgent.Agent.ReceiveTask | robot/src/robot.cpp:268-326 | the reply is the position and whether the task is accepted |
| RobotAgent.Agent.HandoverFinishedOrder | robot/src/robot.cpp:458-524 | the reply is the dish, once; afterwards nothing of it is left |
| RobotAgent.Agent.SwitchPosition | robot/src/robot.cpp:797-859 | refines the call |
| RobotAgent.Agent.CommitNewPosition | robot/src/robot.cpp:892-941 | refines the call |
| RobotAgent.Agent.Reconfigure | robot/src/robot.cpp:959-1021 | refines the call |
| RobotAgent.Agent.RunNextTask | robot/src/robot.cpp:1243-1244 | the event loop runs the oldest task, as the step function of the runs does |
| ControllerAgent.Agent.IsRobotPositionSwapping | controller/src/controller.cpp:176-186 | finds a pending swap exactly when the position is part of one |
| ControllerAgent.Agent.RemoveStoppedRobots | controller/src/controller.cpp:550-570 | erasing while iterating removes exactly the lost robots, counts each once, and acknowledges exactly their sides |
| ControllerAgent.Agent.EraseStalePendingSwapEntries | controller/src/controller.cpp:473-485 | erasing while iterating removes exactly the swaps without any robot left |
| ControllerAgent.Agent.OnRegistration | controller/src/controller.cpp:147-174 | refines the handler; pending swaps stay disjoint |
| ControllerAgent.Agent.SwapPositions | controller/src/controller.cpp:303-385 | refines the handler, lost calls and stops included; pending swaps stay disjoint |
| ControllerAgent.Agent.FinishSwap | controller/src/controller.cpp:426-469 | refines the re-keying: both robots are taken out before either is put back |
| ControllerAgent.Agent.OnPositionSwapped | controller/src/controller.cpp:408-471 | refines the handler; pending swaps stay disjoint |
| ControllerAgent.Agent.Reconfigure | controller/src/controller.cpp:487-514 | refines the handler |
| ControllerAgent.Agent.OnCapabilitiesReconfigured | controller/src/controller.cpp:516-526 | refines the handler |
| SwapTheorems.StepKeeps | controller/src/controller.cpp:147-570 | every step of controller, robots and notifications of connections that last keeps the protocol invariant |
| SwapNetwork.NetStepKeeps | controller/src/controller.cpp:147-570 | every step keeps it, whichever calls get lost and whenever connections are lost, with the notifications of lost connections still being handled, with robots that hang and robots that register again |
| SwapNetwork.StaleSwapped | controller/src/controller.cpp:408-425 | the acknowledgement of a lost robot says nothing new: it completes the swap if the partner has acknowledged meanwhile, and changes nothing otherwise |
| SwapNetwork.RunKeeps | controller/src/controller.cpp:147-570 | the same for whole runs |
| SwapNetwork.DistinctPositions | controller/src/controller.cpp:303-471 | on every run registered robots that do not await a commit hold pairwise distinct positions |
| SwapNetwork.OneTaker | robot/src/robot.cpp:295-302 | on every run a task addressed to a position is accepted by no registered robot but the one filed there, although both partners of a swap may report the same position in between |
| SwapNetwork.HandedOutIsReal | controller/src/controller.cpp:247-256 | on every run a position that is handed out is where the chosen robot really is; that robot is in order, neither on the move nor reconfiguring, and not part of a swap |
| SwapNetwork.HandedOutExactly | controller/src/controller.cpp:247-256 | on every run a connected robot is handed out exactly if it is not part of a swap and no reconfiguration of it is under way or still to be handled: none is kept back for good |
| SwapNetwork.RegisteredCounts | controller/src/controller.cpp:168-169 | on every run REGISTERED_ROBOTS is the size of the registry, lost robots included |
| SwapLosses.LostAreDropped | controller/src/controller.cpp:147-570 | after any registration, request or notification and the next housekeeping, exactly those robots are registered that were connected before or have registered in this step, and to which no read or call of the step got lost; REGISTERED_ROBOTS is their number |
| SwapNetwork.PickupsAreApart | controller/src/controller.cpp:303-471 | on every run registered robots whose dishes wait for their pickup are at different positions |
| SwapTheorems.NotificationsOnlyExchange | controller/src/controller.cpp:408-471 | a notification leaves every robot where it is filed or exchanges exactly the two robots of the swap it completes; nobody is overwritten |
| SwapCompletion.CompletionKeeps | controller/src/controller.cpp:426-469 | completing a swap is a pure exchange, with zero, one or two of its robots left |
| SwapCompletion.SwappedKeeps | controller/src/controller.cpp:408-471 | handling an acknowledgement keeps the protocol invariant |
| SwapRequests.SwapKeeps | controller/src/controller.cpp:303-385 | asking for a swap keeps the protocol invariant, whichever of its four calls get lost |
| SwapRequests.SwapStopsExactly | controller/src/controller.cpp:339-371 | the branches the source calls inconsistent are entered if and only if every check passes, the first call is answered, and the target is not a robot position of the belt |
| SwapRequests.RefusalStops | controller/src/controller.cpp:339-371 | whatever the robots answer, the controller stops exactly if one of them says that it is available and then refuses to move |
| SwapSteps.HousekeepingKeeps | controller/src/controller.cpp:473-485 | removing lost robots and stale swaps keeps the protocol invariant |
| SwapProgress.StrandsExactly | controller/src/controller.cpp:408-570 | a step strands a swap if and only if it is the loss of one robot after the other one's acknowledgement has been handled and before anything about the lost one is queued; nothing frees a stranded swap but the loss of its waiting robot |
| SwapProgress.SwapsCompleteExactly | controller/src/controller.cpp:303-570 | on every run from the start that ends with everybody arrived and all notifications handled, a connected robot is still part of a pending swap if and only if such a loss in the run stranded it |
| SwapProgress.StuckForEver | controller/src/controller.cpp:559-565 | a stranded swap is never completed while its waiting robot is connected: the robot waits for its commit in vain |
| SwapProgress.LossFrees | controller/src/controller.cpp:473-485 | when that connection is lost as well, the next housekeeping forgets the swap |
| SwapAccidents.StrandedRun | controller/src/controller.cpp:303-570 | a run from the start that strands a swap |
| SwapLimits.ConfusedSwapFails | controller/src/controller.cpp:303-425 | in every state of every run: if a swap that both robots agree to is requested while such a notification is queued, there is a continuation, within everything the protocol relies on, on which the controller hands out a robot that is on the move |
| SwapLimits.SwapGuardExactly | controller/src/controller.cpp:303-425 | after a swap that both robots agree to, whatever the controller hands out on any continuation is real if and only if no notification of a lost connection was queued that would be taken for an answer to it |
| SwapLimits.MistakenEndFails | controller/src/controller.cpp:487-526 | if a reconfiguration that the robot agrees to is requested while such a notification is queued, there is a continuation on which the controller hands out a robot that is reconfiguring |
| SwapLimits.ReconfigurationGuardExactly | controller/src/controller.cpp:487-526 | the same exact condition for a reconfiguration |
| SwapMisread.MisreadRun | controller/src/controller.cpp:516-526 | a run from the start with one reconfiguration requested against this guard, after which the controller hands out a position where the robot is not |
| SwapAccidents.StaleRun | controller/src/controller.cpp:408-471 | a run from the start with one swap requested against this guard, after which the controller hands out a position where the robot is not |
| SwapLimits.RegistrationGuardExactly | controller/src/controller.cpp:147-174 | after an accepted registration, whatever the controller hands out on any continuation is real, and a robot in order, if and only if the robot was not adapting and is not told to commit a second time |
| SwapAccidents.TravellerRun | controller/src/controller.cpp:147-174 | a run from the start with one robot that registers while it travels, after which the controller hands out a position where the robot is not |
| SwapAccidents.StopRun | controller/src/controller.cpp:339-345 | a run from the start on which a swap with any position off the belt stops the controller |
| SwapNetwork.InitialNet | controller/src/controller.cpp:9-10 | the protocol invariant holds before any robot has registered |
| ConveyorRuns.InitialKeeps | conveyor/src/conveyor.cpp:63-66 | an empty belt satisfies the invariant |
| ConveyorSteps.StepKeeps | conveyor/src/conveyor.cpp:182-597 | every step keeps: moving means exactly one of an armed timer and outstanding requests, idling means neither and nothing to do, the index is the inverse of the positions, plates and occupied set agree, requests name distinct undecided dishes |
| ConveyorRuns.Run | conveyor/src/conveyor.cpp:182-597 | the same for whole runs: the pending timer is never armed again and the belt never stalls |
| ConveyorInvariant.MovedRotation | conveyor/src/conveyor.cpp:462-472 | although it is overwritten in place, the index is the exact inverse of the plate positions after every move |
| ConveyorSteps.RetrieveAllKeeps | conveyor/src/conveyor.cpp:213-241 | retrieval keeps index, plates and the occupied set in agreement, wherever the robots that are asked are by then |
| ConveyorSteps.RetrieveAllPlate | conveyor/src/conveyor.cpp:213-241 | after a retrieval a plate is as it was, or it carries the dish of a robot that had notified and stands in front of it |
| ConveyorRuns.RetrievalIsComplete | conveyor/src/conveyor.cpp:213-241 | after a retrieval the notification from a position is gone exactly if it was handled and the plate there was free, and that plate carries the dish exactly if one was handed over then; this holds for every position where no robot stands that notified from another one |
| ConveyorRuns.FetchedExactly | conveyor/src/conveyor.cpp:213-241 | whenever a timer has expired or requests are made anew, every robot that has notified is asked exactly if the plate in front of it is free by then, its notification is gone then, and its dish is on that plate |
| ConveyorSteps.AskingNames | conveyor/src/conveyor.cpp:243-249 | requests name distinct positions, of exactly the undecided dishes whose request was taken |
| ConveyorRuns.AsksForExactlyTheUndecided | conveyor/src/conveyor.cpp:243-263 | a dish is asked for if and only if it is undecided and the request was taken |
| ConveyorRuns.StandsWhileAsking | conveyor/src/conveyor.cpp:243-263 | the belt stands still while requests are outstanding |
| ConveyorRequests.SentIsExpected | conveyor/src/conveyor.cpp:317-364 | the recipes that go out with a round of requests are those that the answers will be compared with, in that order |
| ConveyorRequests.AnswersMatchExactly | conveyor/src/conveyor.cpp:317-449 | on every run, answers to given-up requests included: every round of requests fits the answers to come if and only if no answer is rejected and no round that does not fit is given up or left unanswered |
| ConveyorRequests.RoundMatchesExactly | conveyor/src/conveyor.cpp:412-449 | while everything that has been asked is answered, with notifications in between: no answer is rejected if and only if the recipes asked for begin with those of the outstanding requests, in that order |
| ConveyorRequests.ReconnectionMatchesExactly | conveyor/src/conveyor.cpp:746-751 | after a reconnection with requests outstanding that are still answered: no answer is rejected if and only if the recipes sent now are what the recipes of the old requests, followed by the new ones, begin with |
| ConveyorRequests.CleanRunsFit | conveyor/src/conveyor.cpp:317-449 | on every run with answers in the order of the requests, on which reconnections find no request that will still be answered, no answer is rejected |
| ConveyorRequests.NeverStalls | conveyor/src/conveyor.cpp:412-460 | even if old requests are still answered after a reconnection: once the controller has answered everything, no request is outstanding and the belt moves on |
| ConveyorRequests.LateAnswerMismatches | conveyor/src/conveyor.cpp:433-438 | a run from the start on which an answer to a request from before a reconnection is rejected |
| ConveyorRequests.AnswerTaken | conveyor/src/conveyor.cpp:433-449 | an answer with the expected recipe takes exactly the oldest request, any other one changes nothing |
| ConveyorRuns.OfferedWithinATurn | conveyor/src/conveyor.cpp:474-553 | every finished dish is offered to the output, and every dish with a target to its robot, within as many moves as there are plates, unless a robot that has gone on since it notified comes to stand in front of that very plate |
| ConveyorRuns.AnswerSetsTarget | conveyor/src/conveyor.cpp:412-449 | the answer to the oldest request makes the named robot position the target of the dish at the requested position, exactly if a robot was found and the answer is about its recipe, and touches no other plate |
| ConveyorRuns.NamedRobotIsOffered | conveyor/src/conveyor.cpp:412-553 | a dish for which the controller has named the robot at a position is offered at that position within a turn, unless before that another dish is put on its plate |
| ConveyorRuns.OfferedPlate | conveyor/src/conveyor.cpp:474-597 | after the step in which a dish is offered: a taken dish has left its plate, a refused one is undecided, and a finished one stays on its way to the output; then the plate may get a dish, a free one from the robot in front of it, any plate from a robot that has come to stand there since it notified; what is undecided then is asked for in the same step exactly if the request is taken |
| ConveyorSteps.TakenElsewhereStops | conveyor/src/conveyor.cpp:599-642 | the conveyor stops exactly when a robot accepts a dish at another place than in front of its plate, and the dish is not taken off the plate then |
| ConveyorAgent.Agent.constructor | conveyor/src/conveyor.cpp:62-66 | starts with an empty belt |
| ConveyorAgent.Agent.OnNotification | conveyor/src/conveyor.cpp:182-211 | refines the handler |
| ConveyorAgent.Agent.RetrieveDishes | conveyor/src/conveyor.cpp:213-241 | erasing notifications while walking through them refines the retrieval of the theorems |
| ConveyorAgent.Agent.AskForRobots | conveyor/src/conveyor.cpp:243-263 | the loop over the occupied plates queues exactly the specified requests, or arms the movement |
| ConveyorAgent.Agent.OnNextRobot | conveyor/src/conveyor.cpp:412-460 | refines the handler |
| ConveyorAgent.Agent.Turn | conveyor/src/conveyor.cpp:462-472 | the loop moves every plate and overwrites the index entry by entry |
| ConveyorAgent.Agent.OfferPlate | conveyor/src/conveyor.cpp:477-552 | one round of the delivery loop |
| ConveyorAgent.Agent.OfferDishes | conveyor/src/conveyor.cpp:474-553 | the delivery loop over the shrinking occupied set delivers as specified, in any order |
| ConveyorAgent.Agent.NextMovement | conveyor/src/conveyor.cpp:584-597 | refines the decision what to wait for next |
| ConveyorAgent.Agent.OnTimer | conveyor/src/conveyor.cpp:196-263 | refines whatever the expired timer stands for |
| ConveyorAgent.Agent.OnReconnect | conveyor/src/conveyor.cpp:746-751 | gives up outstanding requests and makes them anew |
| RobotIndexRuns.StepKeeps | conveyor/src/conveyor.cpp:642-667 | moves, reports and swaps of disjoint pairs keep the index consistent in any order |
| RobotIndexRuns.IndexIsReal | kitchen/src/kitchen.cpp:460-483 | on every run there is no null entry, and a robot is filed where it really is once the reports about its pair have been handled |
| RobotIndexRuns.HandledReport | conveyor/src/conveyor.cpp:649-666 | a handled report changes nothing, or exchanges the entries of its pair and leaves every other entry alone |
| RobotIndexExchanges.ExchangedOnce | conveyor/src/conveyor.cpp:656-659 | on every run from the empty index, the entries of a pair that changes places are exchanged at most once, and exactly once by the time its reports are handled unless nobody is known at either position |
| RobotIndex.ResyncExactly | conveyor/src/conveyor.cpp:642-667 | on any map: a report changes no other entry, exchanges the two exactly if neither robot filed there is there, and leaves no null entry at either |
| RobotIndex.FiledExactly | conveyor/src/conveyor.cpp:187-198 | on any map: the robot that reports is filed at its position afterwards exactly if it was or can be reached, nobody is otherwise, and no other entry changes |
| RobotIndex.Agent.OnPositionSwapped | conveyor/src/conveyor.cpp:642-667 | refines the exchange, although reading an entry creates it |
| RobotIndex.Agent.File | conveyor/src/conveyor.cpp:187-198 | files a robot under the position it reported from, or nobody if it cannot be reached |
| Kitchen.StepKeeps | kitchen/src/kitchen.cpp:239-426 | RECEIVED is ASSIGNED plus DROPPED plus unanswered requests (modulo 2^32); the gate loses and reorders no order, is open exactly while no timer runs, and then nobody waits; a pending timer is never armed again |
| Kitchen.RunKeeps | kitchen/src/kitchen.cpp:239-426 | the same for whole runs, and at most one order per period passes the gate |
| Kitchen.TimerLetsThrough | kitchen/src/kitchen.cpp:297-314 | an expired timer lets the oldest waiting order through, counts it as received, and runs again; with no order waiting it opens the gate |
| Kitchen.RequestPassesOrWaits | kitchen/src/kitchen.cpp:239-295 | an order passes an open gate at once, and waits behind all others at a closed one |
| Kitchen.PlacedInTurn | kitchen/src/kitchen.cpp:297-314 | on every run a waiting order has been let through exactly when the timer has expired as often as its place in the queue says |
| Kitchen.Agent.OnOrderRequest | kitchen/src/kitchen.cpp:239-295 | refines the handler |
| Kitchen.Agent.OnTimer | kitchen/src/kitchen.cpp:297-314 | refines the timer's handler |
| Kitchen.Agent.OnNextRobot | kitchen/src/kitchen.cpp:385-426 | whatever goes wrong, exactly one of ASSIGNED and DROPPED is counted |
| PlantRuns.StepKeeps | conveyor/src/conveyor.cpp:182-551 | every step of robots, conveyor and kitchen, cut at each remote call, keeps all their invariants together and the balance of dishes, whichever robot is called, whichever calls fail, and whenever robots find the conveyor again and repeat their notification |
| PlantTheorems.OverwritesPlateExactly | conveyor/src/conveyor.cpp:217-311 | a step puts a dish on a given occupied plate if and only if it asks a robot that has a dish and stands in front of that plate; the robot has then moved away from where its notification says, and the plate carries its recipe and steps afterwards |
| PlantTheorems.OverwritesSomePlate | conveyor/src/conveyor.cpp:310-311 | the history of overwritten dishes grows exactly when some occupied plate is overwritten |
| PlantRuns.DishesAreConserved | conveyor/src/conveyor.cpp:213-551 | on every run from an empty plant the recipes assigned by the kitchen are, as a multiset, those at robots, on plates and completed, if and only if no step put a dish on an occupied plate |
| PlantRuns.InitialKeeps | conveyor/src/conveyor.cpp:62-66 | freshly started robots in front of an empty belt satisfy the plant's invariant |
| PlantInvariant.PickupStays | robot/src/robot.cpp:351-371 | a robot whose dish waits for its pickup does not move, whatever it is asked to do |
| PlantTheorems.HandoverFillsPlate | conveyor/src/conveyor.cpp:299-315 | a handover by whichever robot is called fills exactly the plate in front of that robot and changes no other one |
| PlantTheorems.ClearedOnlyWhenTaken | conveyor/src/conveyor.cpp:474-551 | a dish leaves its plate only for the kitchen, with every step done, or for the robot in front of it, which then has it with exactly the steps that were done, or because another one is put on it |
| PlantTheorems.DeliveredExactly | conveyor/src/conveyor.cpp:493-537 | a dish that is offered at its target leaves its plate exactly when the robot that is called has settled in front of it and is capable of its next step, however many steps other robots have done; that robot then has it |
| PlantTheorems.OrderTakenExactly | kitchen/src/kitchen.cpp:385-426 | an order is assigned exactly when the robot that is called has settled at the place named and is capable of the first step |
| PlantTheorems.RobotsRunOnTheirOwn | robot/src/robot.cpp:303-312 | in the plant every robot runs as one does alone, and is only ever asked for open steps of known recipes, so the skip loop never pops an empty queue |
| PlantNotices.NothingOverwritten | conveyor/src/conveyor.cpp:182-315 | while no robot moves of which the conveyor has a notification, and the conveyor asks the robots that sent them, no dish is put on an occupied plate |
| PlantNotices.ConservedWithoutRenotification | conveyor/src/conveyor.cpp:182-551 | on every run from an empty plant on which no robot repeats a notification, and the conveyor asks the robots that sent them, dishes are conserved |
| PlantLimits.OverwritingRun | robot/src/robot.cpp:1201-1225 | a run from the start on which a repeated notification leads to a dish being put on another one |
| PlantIndex.JointKeeps | conveyor/src/conveyor.cpp:182-241 | with the conveyor's own index: whoever has notified from a position stays filed there until its dish is asked for, through reports, answers and other notifications in any order, so the conveyor asks the robot that notified |
| PlantIndex.IndexedPlantConserves | conveyor/src/conveyor.cpp:182-667 | dishes are conserved on every run of the plant with that index |
| PlantNotices.StrandsExactly | conveyor/src/conveyor.cpp:182-241 | a step leaves a waiting robot without a notification if and only if it fails to connect to it, puts another robot's notification in its place, or asks for its dish with a call that fails or reaches another robot, and it had no other notification; the robot's own repeated notification, or being asked for another robot's, ends this, and nothing else does |
| PlantNotices.StrandedExactly | conveyor/src/conveyor.cpp:182-241 | on every run a robot waits in vain at the end if and only if such a step happened to it and it has not recovered since |
| PlantNotices.StrandedKeepsDishes | conveyor/src/conveyor.cpp:228-234 | until it recovers, a robot that waits in vain keeps every dish it has |
| PlantProtocol.ControllerCalls | controller/src/controller.cpp:147-570 | whatever the controller does in a step, each robot has at most one of its calls executed, and one that it may be made to execute: the swap protocol is a run of the plant |
| PlantProtocol.ProtocolKeeps | conveyor/src/conveyor.cpp:182-551 | whatever conveyor and kitchen do in a step, the swap protocol's invariant survives: the plant is a run of the swap protocol |
| PlantProtocol.ProtocolKeepsApart | controller/src/controller.cpp:303-471 | in every state of every run of the swap protocol, robots whose dishes wait are at different positions, if they are registered |
| PlantProtocol.WholePlantIsSafe | conveyor/src/conveyor.cpp:182-667 | on every joint run of controller, robots, conveyor with its index, and orders, from the start: the controller hands out only real positions of robots in order, the conveyor asks the robot that notified, and dishes are conserved |
| PlantProtocol.OnlyFailuresStrandWaiting | conveyor/src/conveyor.cpp:182-241 | on these runs no robot loses its notification to another one: only failed connections, failed calls and its own hanging strand it |
| PlantOrders.JointKeeps | kitchen/src/kitchen.cpp:239-426 | kitchen and plant together: every order that has passed the gate is unanswered, dropped or assigned, recipe by recipe, and the counters count them |
| PlantOrders.OrdersAreAccounted | kitchen/src/kitchen.cpp:183-212 | on every run from the start: every order that has passed the gate is unanswered, dropped, at a robot, on a plate, completed, or was overwritten, recipe by recipe; RECEIVED and ASSIGNED are the sums of these, with DROPPED and COMPLETED as published |
| PlantVisits.VisitsBounded | robot/src/robot.cpp:303-312 | on every run from an empty plant on which no reconfiguration takes effect, robots accept dishes from kitchen and conveyor at most as often as the assigned recipes have steps |
| PlantTheorems.DeliveredOneByOne | conveyor/src/conveyor.cpp:474-551 | cut at its calls, in any order of the plates, the delivery is the conveyor's own |
| PlantTheorems.ReconnectIsTheBelts | conveyor/src/conveyor.cpp:746-751 | a reconnection does in the plant what it does in the conveyor, with the waiting robots' dishes fetched first |

## Left out

- OPC UA servers, clients, browsing, discovery, subscriptions and argument checks: calls are steps, attributes are
  fields, and a subscription is a step that reports a changed value.
- Threads, mutexes, reconnect loops, `start` and `stop`. Of reconnecting, only that the conveyor gives up its
  requests; of stopping, that the controller handles nothing any more, that a robot whose timer is aborted does
  nothing any more, and that a lost robot is removed from the controller's registry.
- A robot's notification to the conveyor is retried until it is taken; it is one step together with the action that
  ends the dish. Its repetition after a reconnection is a step of its own.
- Lost robots in conveyor, kitchen and plant: `Plant` loses calls and has robots that hang, but none that crash. A
  crashed robot takes its dishes with it.
- The adaptation policies (`mape`): they are arbitrary, so every request to swap or reconfigure may come at any time.
- Files, JSON, strings and random choice: recipes, capabilities and picks of tools are parameters.
- Travel distance and real time: a timer fires at any time. The distance of a move that starts before its target is
  stored is computed from the previous target; it only affects the duration.
- Remote robots are values in the controller's map, not objects that callbacks share; a change by a callback
  is a step of its own.
- Node contents, reference type indices, `iterate`, exhausted memory, and overflow of reference counts in the
  node store. Hashes and ids are abstract.
- Whether a queued request for the next robot is ever answered, and whether robots and timers ever act: statements
  about completion count steps that do happen, and none says that a dish is completed.
- Dashboards, statistics, demos, wrappers, and all other vendored files.
- SwapNetwork.DistinctPositions: does not cover a robot that is not registered, because nobody hands out work for it.
- SwapNetwork.RunKeeps: does not cover a registration that is handled after its robot has adapted and its older connection has been lost, both since the registration was posted.
- SwapLimits.SwapGuardExactly: does not cover requests of which a call gets lost or is declined, because the condition is another one then; that they are safe under the same guard is part of SwapNetwork.NetStepKeeps.
- NodeMap.NodeStore.ReplaceNode: does not exclude that the address of a freed entry has been used again for another entry with the same id, because the code compares addresses only; such a stale copy is accepted.
- PlantIndex.IndexedPlantConserves: does not cover a lost connection to a robot whose dish waits, or an answer that names another robot at its position, because the conveyor's map may name another robot there afterwards.
- PlantProtocol.WholePlantIsSafe: does not cover these either, and no robot whose dish waits while the controller has lost it, because another robot may then be sent to its position.
- PlantVisits.VisitsBounded: does not cover runs in which a reconfiguration takes effect, because a robot may then accept a dish and hand it back untouched.
- RobotProgress.VisitsGain: does not cover runs in which a reconfiguration takes effect, because a queued dish may then have no step the robot is capable of.
- NodeMap.NodeStore.InsertNode: does not cover more than 2^28 nodes, because the sizes then exceed the table or the start id wraps.
- RobotAgent.Agent.OnReconfigured: does not say which orders have been re-queued when the robot hangs, because nothing observes them any more.
- RobotAgent.Agent.RunNextTask: does not say which orders have been re-queued when the robot hangs, for the same reason.
