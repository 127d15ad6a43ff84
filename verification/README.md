# SerialNet: a model of the bus and its proofs

SerialNet lets several nodes share one serial wire. A node may only send when the bus master
has granted it a token, so everything the bus promises rests on the master: a re-entrant state
machine whose event handlers report results into an action handler, which starts the next action,
which posts an event back to the machine that is still handling the previous one.

The project models four parts of the program and proves what they promise over every input and
every run:

| part | modules | source |
|---|---|---|
| the master's control loop | `Scheduler`, `MasterModel`, `MasterInvariant`, `MasterSteps`, `MasterRuns`, `MasterTheorems`, `MasterLines`, `MasterHolders`, `MasterTimers`, `MasterProgress`, `MasterLimits`, `MasterDevice` | `src/master` |
| the master and any number of clients on a wire that loses packets | `Bus`, `BusArbitration`, `BusOrder`, `BusAgreement`, `BusRounds`, `BusHearing`, `BusWitnesses` | `src/master`, `src/core` |
| the hierarchical state machine engine and its event queue | `StateChart`, `VecQueues` | `src/statechart`, `src/utility` |
| packets, frames and byte streams | `Prelude`, `Bytes`, `Protocol`, `Framing`, `ByteAdapter`, `Transport` | `src/core`, `src/interfaces` |

## How it is built

* Code that changes things in place is a class whose methods are proved against a specification
  function: `Device` (state machine, action handler and address handler together),
  `MasterScheduler`, `FrameCodec`, `MsgToByteAdapter`, `TxQueue`, `OwnAddress`,
  `PacketTypeCodec`, `VecQueue`, `EventPump` and `Engine`. The theorems are about the
  specification, so they hold of the classes.
* A master is one value, `Master`. `Dispatch` is one turn of the drain loop of `postEvent`;
  `Stimulate` is a packet or one of the three timers reaching a master whose queue is empty. A run
  (`IsRun`) is any sequence of such steps, with the clock, the own client's queue, the receiver and
  the layout of the heap chosen afresh at every step. `Inv` is the invariant that every step keeps.
* The bus is a value `Net`: a master, a map of clients and the packets that were handed to a
  transmitter and not yet delivered. A delivery reaches any subset of the nodes. Hosts queue
  packets, nodes join and leave, and the master is restarted.
* The ways in which the program stops are values, not preconditions: a failed assertion of
  `startAction`, a null line and the `assert(0)` of a report are `Fault`s; a write outside the
  packet buffer is the decoder state `Broken`.

## What the code does not promise

Each of these is a lemma about the code as it is, at an input that fails, with the condition under
which the code does keep its promise.

* A master whose grant is not echoed in time returns to idle without reporting, keeps the token
  current and never does anything again (`StalledForever`). One whose start-up message is not echoed
  dies at `assert(0)`. These are the only two ways to stop, and each happens exactly on that timeout
  (`StopsExactlyWhenUnheard`). Runs that end there exist for the compiled-in configuration
  (`StallIsReachable`, `DeathIsReachable`).
* With no static address configured, the discovery timer posts a query that nobody looks at, and the
  master sleeps for ever. With a clock past one second, no wake-up is lost if and only if there is a
  static address (`WakeUpsNeedAStaticAddress`).
* A waiting time below one second is taken for an empty queue: the delay timer of a handler at rest is
  armed if and only if something waits and the earliest time is at least one second
  (`ArmedExactlyWhenLate`), and a master whose clock starts at zero can fall asleep with a token
  waiting (`EarlyClockFallsAsleep`).
* Two unaddressed clients that hear the same discovery answer it together, since the random delay is
  not implemented. A delivery makes packets collide if and only if two hearers share the granted
  address or two hearers of a discovery have none (`DeliveryCollidesExactly`), and every configuration
  has a run from start-up that gets there (`NewcomersCollide`).
* Static lines never initialise their ids. A client whose id happens to be that of a static line is
  answered with the static address (`StaticAddressIsGivenAway`) and never gets a line of its own; a
  request leaves its id with a line if and only if no static line carries the id and the id is live or
  an address is free (`RequestGetsLineExactly`).
* An empty packet runs the decoder out of its buffer and a packet of 16384 bytes or more is taken for
  a shorter one; a packet survives its frame if and only if it has 1 to 16383 bytes
  (`RoundTripExactly`).
* Asking whether a packet is coming in refreshes the receive timestamp. An abandoned frame is kept if
  and only if no gap between two looks at the clock, polls included, exceeds the timeout, however
  long the silence in all (`PollsKeepOrDrop`, `NextChunkExactly`).
* A request for a state that is not registered is retried for ever; where constructors and destructors
  ask for nothing, the transition loop ends if and only if the state is registered
  (`SettlesExactly`).
* A client that misses the start-up message of a new master keeps its old address, and a newcomer is
  given the same one (`MissedStartSharesAddress`). The clients agree with the new master if and only if
  everyone with a negotiated address hears it start (`StartHeardExactly`).
* A living client that misses four grants in a row keeps its address while its line is retired, and the
  next newcomer is given the same one (`MissedGrantsShareAddress`). A reaction takes an address from its
  holder if and only if it is a timeout of that address after three failures in a row
  (`RetiresExactly`, `TimerSparesExactly`).

## Model

| member | source | states |
|---|---|---|
| `BusArbitration.Arbitration` | src/master/MasterFSM.cpp:105-279 | over every orderly run of the whole bus, with packets lost by any node and state timers re-armed while a packet is coming in, the right to send is in exactly one of: the master, a grant under way, another packet of the master, a client, that client's answer; at most one packet is under way, and an answering client is the one whose address was granted or an address requester |
| `BusArbitration.NetStepKeeps` | src/core/PacketTypeCodec.cpp:98-173 | every step of the bus, nodes that join or leave included, keeps: at most one packet pending, and the master's state and current action are those that wait for that very packet |
| `BusArbitration.NetRunKeeps` | src/master/Master.cpp:36-117 | the bus invariant holds at every point of every orderly run that begins with a started master |
| `BusArbitration.DeliverAnswered` | src/core/PacketTypeCodec.cpp:101-132 | a grant or a discovery moves the right to send to the single client that answers, while the master stays silent |
| `BusArbitration.DeliverUnanswered` | src/core/PacketTypeCodec.cpp:98-173 | after a packet that nobody answers, whoever heard it, the master alone may send, and then sends at most one packet that its new state waits for |
| `BusArbitration.GrantEchoIsSilent` | src/master/MasterFSM.cpp:209-238 | the echo of its grant makes the master wait for the client for exactly the client timeout, change nothing but its state and timer, and send nothing |
| `BusArbitration.HearsExactly` | src/master/Master.cpp:71-117 | a quiet master reacts to a message if and only if its state waits for that message: a start or stop, its grant, a data packet or returned token, an address request; anything else leaves it exactly as it was |
| `BusArbitration.OwnSendsFront` | src/master/MasterFSM.cpp:131-136 | the own client's packet is the front of its queue, and nobody else's queue is touched |
| `BusArbitration.BootedWaits` | src/master/Master.cpp:36-55 | a constructed master has sent exactly its start-up message and waits for the echo |
| `BusArbitration.DeliveryCollidesExactly` | src/core/ClientAddress.cpp:42-55 | a delivery leaves more than one packet under way if and only if two hearers share the granted address, or two hearers of a discovery have no address |
| `BusArbitration.RearmIsSilent` | src/master/MasterFSM.cpp:262-266 | a state timer that fires while a packet is coming in is armed again; nothing else changes and nothing is sent |
| `BusWitnesses.NewcomersCollide` | src/core/ClientAddress.cpp:42-55 | for every valid configuration a run from start-up: a master, its own client and two clients without an address; the first discovery leaves two packets under way |
| `BusWitnesses.MissedStartSharesAddress` | src/core/OwnAddress.cpp:49-57 | for every configuration that gives addresses away, a run from start-up: a client that misses the start-up message keeps the lowest negotiated address, and the first newcomer is given the same one |
| `BusAgreement.StartHeardExactly` | src/core/OwnAddress.cpp:49-57 | after the start-up message of a master without dynamic lines has been delivered, the clients agree with its table if and only if everyone with a negotiated address heard it |
| `BusWitnesses.MissedGrantsShareAddress` | src/master/DynamicHandler.cpp:127-143 | for every configuration that gives addresses away, a run from start-up: a living client misses four grants in a row, its line is retired, and the next newcomer is given the address that it still has |
| `BusAgreement.TimerSparesExactly` | src/master/DynamicHandler.cpp:127-143 | a timer keeps every line that its client has or is about to be told if and only if it is not the fourth failure in a row of such a line, a test on the state before |
| `BusAgreement.AddressAgreement` | src/core/ClientAddress.cpp:42-65 | over every careful run, across lost packets, collisions, repeated requests, newcomers answering one discovery together, timers firing with packets under way, nodes joining and leaving, and restarts of the master at any time: no two nodes share an address, and unless a start-up message is under way every negotiated address is on a line with its holder's id |
| `BusAgreement.AgreeStepKeeps` | src/master/DynamicHandler.cpp:70-97 | every step of the bus keeps: the clients agree with the oldest table still spoken of, every reply under way names a line of the table of its time, and the last table is the running master's |
| `BusHearing.AgreementByHearing` | src/master/DynamicHandler.cpp:127-143 | on a calm bus where holders of negotiated addresses hear a start and their grants, and the master hears answers, failures need no assumption: at most one packet is under way, no two nodes share an address, and every negotiated address is on its holder's line |
| `BusHearing.AttentiveIsCareful` | src/master/MasterFSM.cpp:262-272 | on such a bus the master never gives up, for the fourth time in a row, on an address that its client has or is about to be told |
| `BusHearing.AwaitingIsKept` | src/master/MasterFSM.cpp:209-278 | a reaction leaves the master waiting for a client only if it just heard the echo of that grant, or waited before and heard neither the client nor an idle timeout |
| `BusHearing.CalmRunKeeps` | src/core/PacketTypeCodec.cpp:101-132 | over every calm and careful run agreement and arbitration hold together, so at most one packet is under way |
| `BusHearing.CalmIsOrderly` | src/core/PacketTypeCodec.cpp:101-111 | the agreement itself supplies the unique addresses that arbitration assumes, so a grant has one answer without assuming it |
| `BusAgreement.HeardAgrees` | src/core/ClientAddress.cpp:57-65 | whichever packet is delivered, to whichever nodes: a client that takes a reply's address holds one that the table of that reply gives to it alone, and all clients drop what an older table gave them |
| `BusOrder.DeliverTakesFirst` | src/core/TxQueue.cpp:76-80 | on a wire that keeps each sender's order, a delivery takes the oldest of the master's packets or none of them |
| `BusOrder.TransmitKeepsOrder` | src/core/TxQueue.cpp:76-80 | putting a packet on the wire does not change the order in which the master's packets arrive |
| `BusAgreement.RestartAgrees` | src/master/Master.cpp:36-55 | a restart at any time, with packets of the old master still under way, keeps the agreement although the new table is empty |
| `BusAgreement.DispatchRepliesToRequest` | src/master/MasterFSM.cpp:315-321 | an address reply is only ever sent in answer to a request of the same id |
| `BusRounds.TokenRound` | src/core/TxQueue.cpp:53-74 | a grant that client and master hear, the client's transmission and its delivery: the client sends exactly the front of its queue or returns the token, and the master records its line active or idle accordingly, with no failures, whatever it starts next |
| `BusRounds.AddressRound` | src/core/ClientAddress.cpp:42-65 | a discovery, a request and a reply that are heard: the client ends with the address of the line with its id, the one it had before or else the top of the pool; a known id leaves the master's tables untouched |
| `BusRounds.AnswerSettles` | src/master/MasterFSM.cpp:250-260 | a master that hears the answer to its grant records a good outcome for the granted address, and the rest of its reaction does not touch that line |
| `MasterTheorems.OneTokenPerAddress` | src/master/DynamicHandler.cpp:39-57 | in every reachable state an address with a line has exactly one token among ready, waiting and current, any other address none, and no assertion or null line is ever reached but the one of an unheard start |
| `MasterTheorems.MachineAndHandlerAgree` | src/master/MasterFSM.cpp:384-404 | in every reachable state the machine's and the handler's actions are equal and fit the state, `check_new_command` is alone in the queue and only ever in idle with an action, and a timeout never reaches idle |
| `MasterTheorems.OneDiscoveryObligation` | src/master/DynamicHandler.cpp:117-125 | in every reachable state exactly one discovery is owed: ready, current, or on the timer, and never in the waiting queue |
| `MasterTheorems.NoLostWakeUp` | src/master/ActionHandler.cpp:73-97 | with a static address and a clock past one second, a quiescent master waits in a state with its timer armed, or rests with the delay timer armed for exactly the earliest waiting time, or is stalled |
| `MasterTheorems.ArmedExactlyWhenLate` | src/master/ActionHandler.cpp:85-95 | in every run, whatever the clock: the delay timer of a handler at rest is armed if and only if something waits and every waiting time is at least one second, and then for exactly the earliest |
| `MasterLimits.WakeUpsNeedAStaticAddress` | src/master/ActionHandler.cpp:85-95 | no run puts the master to sleep for good if and only if at least one static address is configured |
| `MasterLimits.BareMasterFallsAsleep` | src/master/DynamicHandler.cpp:117-125 | a concrete run of a master without static addresses that ends with no timer armed |
| `MasterLimits.AsleepForever` | src/master/MasterFSM.cpp:88-102 | a sleeping master never sends or starts anything again, whatever arrives |
| `MasterLimits.EarlyClockFallsAsleep` | src/master/ActionHandler.cpp:87-90 | for every configuration whose master has a static address of its own, a run with a clock below one second that ends asleep with a token waiting and no timer armed |
| `MasterLimits.StallIsReachable` | src/master/MasterFSM.cpp:218-223 | every configuration with a static address other than the master's own has a run that ends stalled |
| `MasterLimits.DeathIsReachable` | src/master/MasterFSM.cpp:181-187 | every configuration has a run that ends at the `assert(0)` |
| `MasterLimits.StaticAddressIsGivenAway` | src/master/AddressLine.h:46-50 | for every configuration and every static address, a run on which a request with that line's uninitialised id is answered with a static address |
| `MasterLimits.ReachQuery` | src/master/ActionHandler.cpp:37-97 | every configuration has a run from start-up through all its static tokens to its first discovery |
| `MasterProgress.Nearer` | src/master/ActionHandler.cpp:73-84 | every end of an action brings a ready action nearer to its turn until it is carried out; only the own token, declined, is passed over on the way |
| `MasterProgress.ServedEnds` | src/master/MasterFSM.cpp:209-367 | an action that is echoed and not answered ends in one reaction: another action has been sent, or nothing is ready, everything waiting lies in the future and the timer is set for the earliest |
| `MasterHolders.RetiresExactly` | src/master/DynamicHandler.cpp:127-143 | a whole reaction takes an address from its holder if and only if it is a timeout of that address with no packet coming in, after three failures in a row: a test on the state before |
| `MasterTheorems.NoStarvation` | src/master/MasterScheduler.h:57-85 | between two starts of one address's token, everything that stood ready at the first has been started, in order |
| `MasterTheorems.LogGrows` | src/master/MasterScheduler.h:62-85 | over any part of a run, started actions followed by ready ones only grow at the end: ready actions are started in order and none is dropped |
| `MasterTheorems.StalledForever` | src/master/MasterFSM.cpp:218-223 | a stalled master stays stalled and never sends or starts anything again |
| `MasterTheorems.StopsExactlyWhenUnheard` | src/master/MasterFSM.cpp:181-223 | in every run the master is stalled if and only if the echo of some grant was given up on, and dead if and only if that of the start-up message was |
| `MasterTheorems.BoundedReaction` | src/statechart/StateChart.h:313-329 | with the clock and the own queue standing still, at most three dispatches drain the queue after any stimulus, at most one packet is sent, and the invariant holds again |
| `MasterTheorems.DispatchMakesProgress` | src/master/MasterFSM.cpp:119-137 | every dispatch strictly lowers a bound on the dispatches left: the own token is declined once and then waits for later |
| `MasterTheorems.DrainKeeps` | src/statechart/StateChart.h:320-327 | the drain loop, given as many turns as that bound, ends with the queue empty and the invariant intact |
| `MasterSteps.DispatchKeeps` | src/master/MasterFSM.cpp:88-366 | one dispatch of any event in any state that satisfies the invariant keeps it, sends at most one packet and leaves at most one `check_new_command` queued |
| `MasterSteps.ReportKeeps` | src/master/ActionHandler.cpp:37-97 | a re-entrant report settles the finished action, keeps one token per address, and either queues one `check_new_command` for the next action or arms the delay timer for the earliest waiting time |
| `MasterSteps.RequestReplies` | src/master/DynamicHandler.cpp:70-86 | a request is answered at most once, with the address on the line that carries the requester's id, and loses no ready action |
| `MasterSteps.UnheardStartDies` | src/master/ActionHandler.cpp:67-68 | giving up on the start-up message reaches the `assert(0)`, with the books still balanced |
| `MasterInvariant.UpdateKeepsBooks` | src/master/DynamicHandler.cpp:127-143 | recording the outcome of the missing token always finds its line, and either requeues exactly that token or retires the line and frees its address |
| `MasterInvariant.RequestKeepsBooks` | src/master/DynamicHandler.cpp:70-97 | an address request keeps pool, table and tokens in balance: a new line gets one token, an old one none |
| `MasterInvariant.LookKeepsBooks` | src/master/ActionHandler.cpp:73-97 | a look for the next action loses and duplicates none, and leaves nothing due in the waiting queue |
| `MasterRuns.StimulusKeeps` | src/master/MasterFSM.cpp:47-66 | a packet or timer reaching a quiescent master keeps the invariant and sends nothing by itself |
| `MasterRuns.BootInv` | src/master/Master.cpp:36-55 | the constructed master satisfies the invariant, with the start-up action decoded next |
| `MasterRuns.ReachableInv` | src/master/Master.cpp:36-117 | the invariant holds in every state of every run from construction |
| `MasterLines.PoolConserved` | src/master/DynamicHandler.cpp:49-106 | in every reachable state the free addresses and those on dynamic lines are together exactly the dynamic range, each once; ids of dynamic lines differ; every static address has a line |
| `MasterLines.RepeatedRequestSameAddress` | src/master/DynamicHandler.cpp:70-106 | in every reachable state, a request from any live dynamic id gets the address of that id's line and changes nothing else |
| `MasterLines.RequestGetsLineExactly` | src/master/DynamicHandler.cpp:70-106 | in every reachable state, a request leaves its id with a dynamic line if and only if no static line carries the id and the id is live or an address is free; an id of a static line is answered with that static address |
| `MasterLines.RunKeepsIds` | src/master/AddressLine.h:46-57 | in every reachable state static lines have the ids they came with, and no dynamic line has one of those |
| `MasterLines.LinesTellTheirHistory` | src/master/AddressLine.h:76-93 | over any run a line's failure count is the length of the row of timeouts its history ends with; a dynamic line that exists ends with fewer than four; a static line is free exactly when never polled or its last four or more outcomes are timeouts |
| `MasterLines.RetiredOnFourthTimeout` | src/master/DynamicHandler.cpp:127-143 | a dynamic line disappears in a step if and only if that step records the fourth timeout in a row, and its address is then free |
| `MasterLines.PolledOnSchedule` | src/master/DynamicHandler.cpp:127-162 | over any run, a step that records an outcome for an address whose line stays leaves its token waiting for exactly the delay its history calls for: freed after four or more timeouts, one to three timeouts, packet sent, or token returned |
| `MasterLines.LineAfterStep` | src/master/ActionHandler.cpp:46-58 | a line changes only when an outcome is recorded for its own address |
| `MasterLines.OwnToken` | src/master/MasterFSM.cpp:119-137 | the own client's token: with nothing to send it is declined on the spot, nothing is sent and its line is idle with no failures; otherwise exactly one packet of the client is sent and the master waits for it |
| `MasterLines.NewLine` | src/master/DynamicHandler.cpp:74-81 | a line that appears is dynamic, idle and without failures |
| `MasterModel.FindAddr` | src/master/DynamicHandler.cpp:108-115 | the first line with the address, found if and only if there is one |
| `MasterModel.FindId` | src/master/DynamicHandler.cpp:99-106 | the first line with the id, found if and only if there is one |
| `MasterModel.ShippedIsValid` | src/utility/Config.h:49-158 | the compiled-in ranges and delays, number by number, and that they meet what the theorems ask of a configuration |
| `Scheduler.TakeDueMovesExactlyTheDue` | src/master/MasterScheduler.h:77-85 | `workToDo` moves exactly the due actions, in queue order, losing and duplicating none, whatever the heap does with equal elements |
| `Scheduler.MovedInOrder` | src/master/MasterScheduler.h:105-113 | of two moved actions the earlier comes first; at equal times a start comes before a token, and a token before a query |
| `Scheduler.PromotedConserves` | src/master/MasterScheduler.h:77-85 | no action is lost, those already ready stay in front, and exactly the later ones keep waiting |
| `Scheduler.ReadyTimeIsEarliest` | src/master/MasterScheduler.h:89-92 | `readyTime` is a lower bound of the waiting times and one of them |
| `Scheduler.FirstTop` | src/master/MasterScheduler.h:105-113 | an element than which no other leaves earlier |
| `Scheduler.MasterScheduler.WorkToDo` | src/master/MasterScheduler.h:77-85 | the loop that pops whichever top the heap offers has the specified effect for some choice among equal elements, and tells whether anything is ready |
| `Scheduler.MasterScheduler.AddAction` | src/master/MasterScheduler.h:57-60 | the action waits for its time, and nothing else changes |
| `Scheduler.MasterScheduler.AddActionNow` | src/master/MasterScheduler.h:62-65 | the action stands behind all ready ones |
| `Scheduler.MasterScheduler.Pop` | src/master/MasterScheduler.h:67-75 | the oldest ready action is returned and removed |
| `MasterDevice.Device.Wire` | src/master/Master.cpp:36-55 | construction posts the start-up actions and drains the first reaction in at most three dispatches |
| `MasterDevice.Device.Start` | src/master/DynamicHandler.cpp:39-57 | both loops: one free line and one ready token per static address, then a discovery; the pool holds the dynamic range with the lowest address on top |
| `MasterDevice.Device.PostEvent` | src/statechart/StateChart.h:313-329 | posting into a queue being drained only appends; posting into an empty one runs the drain loop to its end in at most three dispatches and restores the invariant |
| `MasterDevice.Device.Turn` | src/statechart/StateChart.h:320-327 | one turn of the loop, with all its re-entrant calls, is one dispatch of the model |
| `MasterDevice.Device.ProcessEvent` | src/statechart/StateChart.h:336-352 | event function, destructor and constructor together do what the model's reaction says |
| `MasterDevice.Device.HandleEvent` | src/master/MasterFSM.cpp:88-366 | the six event functions make the model's reaction and ask for its target state |
| `MasterDevice.Device.DecodeAction` | src/master/MasterFSM.cpp:105-154 | idle's decoding of a started action, with the own client served directly |
| `MasterDevice.Device.ExitState` | src/master/MasterFSM.cpp:338-342 | leaving a state disarms its timer; leaving the reply state also reports, re-entrantly |
| `MasterDevice.Device.EnterState` | src/master/MasterFSM.cpp:160-337 | entering a state arms its timer and sends its packet |
| `MasterTimers.TimersOnSchedule` | src/master/MasterFSM.cpp:160-367 | in every run, the timer of a state that waits is set for the time of the step that entered the state or armed the timer again, plus exactly that state's delay: the start echo, the grant echo, or the client timeout for the other three |
| `MasterTimers.DiscoveryOnSchedule` | src/master/DynamicHandler.cpp:117-125 | in every run, the discovery timer is armed if and only if a query has ended and the timer has not fired since, and then for exactly one query period after that end |
| `MasterDevice.Device.StartAction` | src/master/MasterFSM.cpp:384-392 | an action is taken over and its one event posted; a second action would be the failed assertion |
| `MasterDevice.Device.Report` | src/master/MasterFSM.cpp:394-404 | the machine's action is cleared before the handler is called back |
| `MasterDevice.Device.HandlerReport` | src/master/ActionHandler.cpp:37-71 | the outcome is recorded for the finished action's address, then the next action is looked for; an unknown result is the fault |
| `MasterDevice.Device.CheckNewAction` | src/master/ActionHandler.cpp:73-97 | starts the oldest ready action or arms the delay timer, and does nothing while an action is current |
| `MasterDevice.Device.UpdateAddressLine` | src/master/DynamicHandler.cpp:127-143 | the line records the outcome; it is retired to the pool or its token waits for the delay of its new state |
| `MasterDevice.Device.ReceivedAddressRequest` | src/master/DynamicHandler.cpp:70-97 | replies with the known line's address, else allocates from the top of the pool, else stays silent |
| `MasterDevice.Device.MasterPacketReceived` | src/master/Master.cpp:71-117 | a received message becomes its event or none, and the whole reaction to it is the model's |
| `MasterDevice.Device.FsmTimerFires` | src/master/MasterFSM.cpp:47-53 | the state timer's reaction is the model's and keeps the invariant |
| `MasterDevice.Device.DelayTimerFires` | src/master/ActionHandler.cpp:92-93 | the delay timer's look for work, with the drain it starts, is the model's |
| `MasterDevice.Device.DiscoveryTimerFires` | src/master/DynamicHandler.cpp:121-124 | a query is made ready and nobody is told |
| `MasterDevice.PerformIsTransition` | src/statechart/StateChart.cpp:60-149 | in a reachable state, the event function followed by the left state's destructor and the entered state's constructor equals the model's single reaction, including the report made by a destructor |
| `StateChart.TransitionIsMinimal` | src/statechart/StateChart.cpp:90-149 | between any two different states of any tree, a state is left if and only if it is on the old path alone, entered if and only if on the new path alone, and kept if and only if on both |
| `StateChart.SelfTransition` | src/statechart/StateChart.cpp:93-98 | a transition to the current state leaves and re-enters the leaf alone |
| `StateChart.FlatTransition` | src/statechart/StateChart.cpp:60-108 | in a machine without nesting, every transition is one exit and one entry |
| `StateChart.RegisterKeepsTree` | src/statechart/StateChart.cpp:27-43 | registering a state below a registered parent keeps a tree, and every id that was known finds the same state as before, repeated ids included |
| `StateChart.PathOfAncestor` | src/statechart/StateChart.cpp:75-88 | the path to a state runs through the path to each of its ancestors |
| `StateChart.FindState` | src/statechart/StateChart.h:198-205 | the first registered state with the id, if any |
| `StateChart.Engine.AddState` | src/statechart/StateChart.cpp:27-43 | with a registered parent the state is registered one level below it and the tree stays valid, for new and repeated ids; an unregistered parent is refused and changes nothing |
| `StateChart.Engine.PopulateNextInfos` | src/statechart/StateChart.cpp:75-88 | the climb through the parents ends, and leaves exactly the root path of the target |
| `StateChart.Engine.FindFirstThatDiffer` | src/statechart/StateChart.cpp:90-108 | the number of kept states: the longest common prefix, or all but the leaf for a self-transition |
| `StateChart.Engine.DoExit` | src/statechart/StateChart.cpp:121-130 | the states beyond the kept ones are destroyed leaf first; the last request made by a destructor stands |
| `StateChart.Engine.DoEntry` | src/statechart/StateChart.cpp:131-149 | the missing states are created root first; the last request made by a constructor stands |
| `StateChart.Engine.DoTransition` | src/statechart/StateChart.cpp:60-73 | the machine ends on the root path of the target, having left and entered exactly the states of the minimal transition, and the last request made on the way stands |
| `StateChart.Engine.PrepareTransition` | src/statechart/StateChart.cpp:45-58 | after any number of turns of the loop the machine stands where the specification says, with everything left and entered in order, whatever each constructor and destructor asks for each time it runs, an unknown state being retried; the loop has ended exactly when no request is left |
| `StateChart.LastAskerDecides` | src/statechart/StateChart.cpp:150-155 | if a constructor or destructor asks for a state and none after it asks for anything, that state is the request afterwards |
| `StateChart.NobodyAsks` | src/statechart/StateChart.cpp:150-155 | if none of them asks, the request from before stands |
| `StateChart.RequestOnTheWay` | src/statechart/StateChart.cpp:45-58 | a transition asked for by a constructor or destructor on the way is not lost: after two turns the machine stands on the root path of the state asked for last, having gone both ways |
| `StateChart.SettlesExactly` | src/statechart/StateChart.cpp:45-58 | where constructors and destructors ask for nothing, the loop ends if and only if the requested state is registered, after one transition to its path |
| `StateChart.UnknownIsRetried` | src/statechart/StateChart.cpp:49-57 | a request for an unregistered state is retried for ever and changes nothing |
| `StateChart.SettledStays` | src/statechart/StateChart.cpp:49-57 | once the loop has ended, looking later gives the same machine |
| `StateChart.Engine.OfferEvent` | src/statechart/StateChart.h:336-350 | the event is offered from the leaf towards the root, up to and including the first state that handles it; the last request stands |
| `StateChart.OffersClimb` | src/statechart/StateChart.h:336-350 | the offers are the current states from the leaf upwards; none but the last handles the event, and they end below the root only at a state that handles it |
| `StateChart.LastOfferDecides` | src/statechart/StateChart.h:344-351 | if a state asks for a transition on an event and none offered after it asks for anything, that transition is the request afterwards |
| `StateChart.EventLeadsTo` | src/statechart/StateChart.h:336-352 | an event leads to the root path of the state that was asked for last on its way up, with exactly the exits and entries in between |
| `StateChart.Engine.ProcessEvent` | src/statechart/StateChart.h:336-352 | the offers come first, then the chain of transitions they asked for, for as many turns as one cares to look and with callbacks that may answer differently each time |
| `VecQueues.VecQueue.Push` | src/utility/VecQueue.h:45-53 | appends to the queue; the store never exceeds max(21, 2M - 1) for the largest number M of elements queued so far |
| `VecQueues.VecQueue.Pop` | src/utility/VecQueue.h:55-59 | removes the oldest element and keeps the store bound |
| `VecQueues.VecQueue.PopBack` | src/utility/VecQueue.h:60-64 | removes the newest element and keeps the store bound |
| `VecQueues.VecQueue.CheckRenormalization` | src/utility/VecQueue.h:97-106 | the contents stay, and the unused front is at most half of the store afterwards |
| `VecQueues.VecQueue.CheckEmpty` | src/utility/VecQueue.h:89-96 | the contents stay, and a used-up store is emptied |
| `VecQueues.VecQueue.Front` | src/utility/VecQueue.h:66-73 | the oldest element |
| `VecQueues.VecQueue.Size` | src/utility/VecQueue.h:75-78 | the number of queued elements |
| `VecQueues.VecQueue.Empty` | src/utility/VecQueue.h:79-82 | an empty store means an empty queue and the other way round |
| `VecQueues.EventPump.PostEvent` | src/statechart/StateChart.h:313-329 | from outside, everything posted, on the way included, has been dispatched exactly once and in posting order when the call returns; from inside a handler, posting only queues |
| `VecQueues.EventPump.Turn` | src/statechart/StateChart.h:320-327 | the element that is popped is the one that was dispatched, whatever was posted meanwhile |
| `VecQueues.EventPump.ProcessEvent` | src/statechart/StateChart.h:336-352 | a handler is never called while another one runs |
| `Framing.StreamRoundTrip` | src/core/FrameCodec.cpp:52-158 | any list of packets of 1 to 16383 bytes, whatever bytes they hold, is decoded from the concatenation of its frames in order, and the decoder is ready for the next keyword |
| `Framing.NoisyRoundTrip` | src/core/FrameCodec.cpp:100-109 | whatever bytes other than the keyword lie before, between and after the frames, exactly the packets are reported, in order, and the decoder ends ready for a keyword |
| `Framing.FrameLayout` | src/core/FrameCodec.cpp:52-85 | the bytes of a frame: 0xfd, the length in one byte below 128 and in two otherwise, the payload, a byte that makes the exclusive-or of everything before the filler zero, and 0xff |
| `Framing.AnyLengthDecodes` | src/core/FrameCodec.cpp:110-126 | any number of length bytes is read as a number in groups of seven bits, as long as it fits the machine |
| `Framing.DamageIsConfined` | src/core/FrameCodec.cpp:127-156 | one changed payload or checksum byte in one frame of a stream drops exactly that packet |
| `Framing.FrameOutcome` | src/core/FrameCodec.cpp:94-158 | a frame of expressible length is consumed whole and reported exactly when its checksum byte is right; the filler does not matter |
| `Framing.RoundTripExactly` | src/core/FrameCodec.cpp:69-77 | a packet survives its frame if and only if it has 1 to 16383 bytes |
| `Framing.EmptyPacketBreaks` | src/core/FrameCodec.cpp:127-136 | the frame of an empty packet makes the decoder write outside its buffer |
| `Framing.LongPacketIsLost` | src/core/FrameCodec.cpp:71-76 | the frame of a packet of 16384 bytes or more never reports that packet |
| `Framing.HeaderDecodes` | src/core/FrameCodec.cpp:100-126 | both length forms are read back modulo 2^14 |
| `ByteAdapter.FrameCodec.EncodePacket` | src/core/FrameCodec.cpp:52-85 | the buffer filled in place is the specified frame |
| `ByteAdapter.FrameCodec.WriteHeader` | src/core/FrameCodec.cpp:58-77 | keyword, one or two length bytes, and the checksum over them |
| `ByteAdapter.FrameCodec.DecodeByte` | src/core/FrameCodec.cpp:94-158 | one byte moves the codec object as specified, in every state |
| `ByteAdapter.FrameCodec.ReceiveData` | src/core/FrameCodec.cpp:87-92 | a chunk is decoded byte by byte, with the reported packets in order |
| `ByteAdapter.LateChunkResynchronises` | src/core/MsgToByteAdapter.cpp:65-89 | a chunk more than 0.1 s after the last timestamp delivers all its whole frames, whatever bytes other than the keyword lie around them and whatever partial frame came before |
| `ByteAdapter.ChunkingIsInvisible` | src/core/MsgToByteAdapter.cpp:58-89 | with no gap beyond 0.1 s, any chunking and any polls give the result of decoding all bytes at once |
| `ByteAdapter.PollsKeepOrDrop` | src/core/MsgToByteAdapter.cpp:58-89 | a frame in progress followed by polls alone is kept if no gap between looks at the clock exceeds 0.1 s, and is dropped otherwise |
| `ByteAdapter.NextChunkExactly` | src/core/MsgToByteAdapter.cpp:58-89 | bytes after a partial frame and any polls are the rest of that frame if and only if no gap, polls included, exceeds 0.1 s; otherwise they are decoded from a clean start |
| `ByteAdapter.ResynchronisedAfterPolls` | src/core/MsgToByteAdapter.cpp:65-89 | after a gap that is too long anywhere among the polls, all frames of the next chunk are delivered |
| `ByteAdapter.MsgToByteAdapter.ReceiveBytes` | src/core/MsgToByteAdapter.cpp:65-74 | timeout check, timestamp and decoding together are the specified reception |
| `ByteAdapter.MsgToByteAdapter.PacketRxInProgress` | src/core/MsgToByteAdapter.cpp:58-63 | a poll tells whether a frame is in progress, after it may have dropped it, and refreshes the timestamp |
| `ByteAdapter.MsgToByteAdapter.CheckTimeout` | src/core/MsgToByteAdapter.cpp:76-89 | only a frame in progress can time out, and only then is the timestamp touched |
| `Transport.EndToEnd` | src/core/TxQueue.cpp:34-92 | the bytes a sender puts on a clean line deliver at any receiver exactly what the host offered while the sender had an address and what is meant for that receiver, up to those still queued: the i-th delivery has the payload, source, destination and channel of the i-th such offer |
| `Transport.AcceptedIsOffered` | src/core/TxQueue.cpp:82-92 | what a sender accepts is exactly what its host offers while it has an address, in order, with payload, destination and channel of each offer and the address of that time as source |
| `Transport.DeliveredAsIs` | src/core/PacketTypeCodec.cpp:112-126 | a message is delivered if and only if it is a data message on a known channel with a receiver, to this node's address, to everyone, or heard by a node with the broadcast address; once, with its payload, source, destination and channel |
| `Transport.QueuedIsDelivered` | src/core/PacketTypeCodec.cpp:181-196 | a stored packet with a known channel and a receiver is handed on first, with the payload, source, destination and channel that its bytes hold; any other is skipped |
| `Transport.AcceptedIsSentThenQueued` | src/core/TxQueue.cpp:53-74 | over any run of offers, grants and address changes, the accepted packets are the sent ones in order followed by the queue, and every grant sends exactly one message |
| `Transport.TxQueue.SendPacket` | src/core/TxQueue.cpp:34-51 | the queued bytes are those of the data message from this node's address |
| `Transport.TxQueue.HostSendPacket` | src/core/TxQueue.cpp:82-92 | with an address, exactly the offered data is queued for the given destination and channel, from that address; without one, nothing is |
| `Transport.TxQueue.SendClientPacketOrReturnToken` | src/core/TxQueue.cpp:53-65 | a granted client sends the front of its queue, or returns the token: what the bus model says of a hearing client |
| `Transport.TxQueue.SendClientPacket` | src/core/TxQueue.cpp:67-74 | the front of the queue is sent and removed |
| `Transport.TxQueue.SendReturnToken` | src/core/TxQueue.cpp:94-101 | the token is returned under this node's address |
| `Transport.PacketTypeCodec.RxRawPacket` | src/core/PacketTypeCodec.cpp:81-174 | a raw packet moves the node exactly as the bus model's client, sends its one answer if it has one, is handed to a registered master, updates a registered address cache, reports the end of a master, and delivers its payload if it is meant for this node; a short or unknown packet does nothing |
| `Transport.PacketTypeCodec.DeliverRxQueue` | src/core/PacketTypeCodec.cpp:176-198 | the receive queue is drained in order to the registered receivers |
| `Transport.OwnAddress.Set` | src/core/OwnAddress.cpp:38-47 | the address is taken, and the listener told exactly when it changes |
| `Transport.OwnAddress.MasterStarted` | src/core/OwnAddress.cpp:49-57 | a negotiated address is dropped, a configured one kept |
| `Protocol.ParseSerialize` | src/interfaces/SerialProtocol.h:196-262 | every message survives its byte layout |
| `Protocol.ByteLayout` | src/interfaces/SerialProtocol.h:196-258 | the type code of every message and the place of each of its fields in the bytes |
| `Protocol.SizesExactly` | src/core/PacketTypeCodec.cpp:40-69 | a packet is long enough if and only if its first byte is one of the nine type codes and it holds that type's header |
| `Protocol.Parse` | src/core/PacketTypeCodec.cpp:40-69 | bytes are a message if and only if they are long enough for a known type |

## Left out

- Drivers, the hardware layer, factories and the folder manager: operating-system calls.
- libev and the timer objects: a timer is an optional deadline that a step may fire; no theorem needs it to fire in time.
- `TimeServiceSim` is an unfinished stub; logging, packet dumps, command-line configuration and `main` have no protocol behaviour.
- The look-ups of `AddressCache` and the sending of MAC updates by a host: only easy members. A MAC update on the bus is a data packet here.
- Shutdown: `exitMaster`, `cleanup` and destructors that run at the end of the program.
- Placement new and raw storage of the state machine engine: only the order of constructors, destructors and offers is kept.
- Times are real numbers, not doubles: rounding and the loss of precision of large times are not captured.
- The order in which a heap returns equal elements is left open: every choice is covered.
- The channel and checksum fields of an address request are never initialised nor read by the protocol; they are zero. The channel of an address line is never read and is not kept.
- The own client's address is a constant of the configuration. The own client's packets and the clock are seen as constant while one stimulus is processed, as the event loop is single-threaded.
- MasterDevice.Device: the event queue and the ready queue are sequences; that `VecQueue` behaves like one is proved separately. The transition engine is used in its flat form, and `StateChart` proves the general one.
- BusArbitration.Arbitration: assumes that no two hearers answer one packet, that a state timer fires with a packet under way only where the program sees it coming in and arms the timer again, and that a master restarts on a silent bus. The first and the last are exact by `DeliveryCollidesExactly` and `RestartCollidesExactly`; that `packetRxInProgress` sees every packet under way in time depends on the hardware.
- BusAgreement.AddressAgreement: assumes that every holder of a negotiated address hears a starting master (exact by `StartHeardExactly`), that the master does not give up for the fourth time in a row on an address that its client has or is about to be told (exact by `TimerSparesExactly`, and derived from hearing by `AgreementByHearing`), that uninitialised static lines do not carry a client's id, and that a node that joins draws an id that nothing under way is about and, if configured, has an address of its own.
- BusHearing.AgreementByHearing: assumes that the master's own address lies outside the negotiated range, which the command line ensures (src/mains/serialnet/SNConfig.cpp:144-153).
- BusArbitration.NetStepKeeps: the bus carries messages, not bytes; damaged frames are lost packets here, and `Framing` and `ByteAdapter` treat bytes.
- Framing.DamageIsConfined: a changed keyword or length byte is not covered, since it can take the following frames with it; a changed filler byte does no harm by `FrameOutcome`.
- ByteAdapter.FrameCodec.DecodeByte: what the program does after a write outside the packet buffer is undefined, and the object then stays `Broken`; a failed allocation for a length beyond memory is not modelled.
- VecQueues.EventPump.PostEvent: handlers post a finite number of events in all; with handlers that post for ever the loop does not end.
- Transport.PacketTypeCodec.RxRawPacket: the registered master's own reaction to a packet is not part of this method; it is `MasterDevice.Device.MasterPacketReceived`.
- StateChart.Engine.PrepareTransition: the program's loop has no limit of turns; the model looks at it after any chosen number of turns, since a loop that never ends has no final state.
- StateChart.Engine.AddState: states are registered before the machine is started; the program does not check this.
- The repository's README (lines 82-88) gives the master address 0 and says that only static addressing exists; the code gives the master's own client address 1 and negotiates addresses, and the model follows the code.
