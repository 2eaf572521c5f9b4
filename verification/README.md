# A verified model of MultiplayerCars

MultiplayerCars is a small replicated-state system. Every C++ client owns the position of its own car, a Go
server fans each client's events out to its peers, and every client folds what it receives into a map of the
other players. This Dafny project models the protocol between them, the client's message pipeline, and the
server's session management, and proves what they promise.

## The modules

- `Events`: identifiers, cars, the events the server sends down, and the arrow-key movement rule.
- `Broadcast`: the server's peer loop over a client map that changes while it ranges, and over channels without
  a buffer, at each of which it waits for the receiver.
- `Replication`: the replication and discovery protocol as one transition system over all clients, with the
  invariant over ordered pairs of members that gives convergence.
- `ProtocolMeasure`: the measure that makes it terminate. `Discovery`: where it can come to a stop.
  `JoinDeadlock`: joiners that wait for each other's channels, and exactly when that can happen.
- `Recovery`: exactly when a pair that is out of agreement is certain to be repaired. `BatchLoss`: what a batch
  pass does to agreement, and a run in which a player stays misplaced.
- `Colours`: colours in the protocol, which are right as long as nobody repaints a car.
- `Program`: every queue and every part of a frame of every client, with the server, as a transition system that
  refines the protocol.
- `SenderOrder`: what many interleaved read goroutines, each in the middle of its own peer loop, do to the order
  of messages. `FanOutRuns`: the handlers of `Manager` are runs of it.
- `GameClient`, `Session`, `Queues`, `Relay`, `TextBuffer`, `UuidGenerator`: the client's imperative parts, as
  classes, methods and loops proved against functions. `PlayerMap`, `WireFormat` and the second half of
  `GameClient` say what those functions mean.
- `Pipeline`: socket thread, relay thread and frame loop interleaved queue operation by queue operation.
  `WorkerMonitor`: a worker on the blocking queue, at the level of mutex and condition variable.
- `Manager`, `Otp`, `Admission`, `KeepAlive`: the server's client map and handlers as classes, one-time
  passwords, admission as timed runs, and the ping/pong deadline.
- `Runs`: transition systems, their runs and reachable states, shared by all of the above. `Sums`: sums over
  finite sets and their sizes, for the measure.

State that the program updates in place is a class with the same fields, and each of its methods is proved
equal to a function of the old state. Threads are interleaved in transition systems whose steps use the same
functions where they overlap (`Sight`, `Steer`, `LaneOf`, `FrameOf`, `Decide`). A run is a finite sequence of
steps of any length; `Reachable` means reached by some run from the initial state.

## Assumptions

- Client UUIDs are distinct and never reused, and one-time keys are new when issued.
- The gate at CPPClient/websocket/websocketSession.cpp:39 is open when a client announces a position. The
  protocol takes a client to exist from the end of its handshake, at the origin, and its positions to be written
  without error; `WorkerWrite` and `WrittenCarries` say what is lost when writes fail.
- The unlocked `isEmpty` and `getSize` reads are atomic, as is each access to the one-time-password map.
- Go's map iteration rule: an entry present throughout a loop is visited exactly once, one removed before it
  is reached is not visited, one added meanwhile may or may not be.
- A send on an unbuffered channel waits for the receiver's write goroutine, which runs from the end of the
  receiver's own announcement. A send already begun to a client that then leaves is taken to complete, and so are
  the sends of an exit broadcast.
- Colour and chat broadcasts run in the same read goroutines and peer loops as positions. They are not steps of
  the protocol: there they only delay a goroutine.
- A `notify_one` wakes the one consumer if it waits; wake-ups without a notify may happen at any time.

## Where the code differs from what it says

- Clients are said to discover one another as they join (CPPClient/main.cpp:261). The announcement is sent before
  the joiner's own write goroutine starts (GoServer/manager.go:226-229), so two overlapping joins can wait for each
  other's channel for ever: `TwoJoinersBlock` is such a state. `ComesToRestIff` shows that two clients being
  announced at once is exactly what it takes.
- `PERIODIC_POSITION_BATCH_HANDLING_MS` (CPPClient/main.cpp:44) suggests a repeated pass, but the thread that
  raises the flag has no loop (CPPClient/main.cpp:93-96): there is at most one batch pass in a client's life.
- The comment at CPPClient/main.cpp:527 calls losing a few positions harmless. `PassCanMisplace` is a run that
  ends, with nothing in flight, with a player shown in the wrong place. `DropHarmlessIff` says for every pass and
  every pair when that cannot happen.
- `sendPosition`, `sendColorUpdate` and `sendTextMessage` never return true.
- The ping interval is said to be less than the pong wait so that a pong is in before the next ping
  (GoServer/client.go:16-20). It is, but for a wait of one nanosecond it is zero, which a ticker refuses
  (`PingIntervalInside`); and what keeps a connection alive is not that alone (`NeverExpiresIff`).

## Model

| member | source | states |
|---|---|---|
| Replication.InvStep | CPPClient/main.cpp:253-268 | every step of the protocol (connect, add, peer-loop step, routing, key press, send, position handled, departure, colour change, batch pass of any kind) keeps, for every ordered pair of members that no pass has spoiled, that the receiver is certain to end up believing the sender's current position or the sender is certain to meet the receiver and answer |
| Replication.PairConverges | CPPClient/main.cpp:456-466 | in every reachable state, whatever the order of joins, moves, departures and batch passes: once nothing of a's is in flight towards b and nothing of b's towards a, b has an entry for a with exactly a's coordinates, unless a pass has cost the pair its agreement and a has not announced itself since |
| Replication.QuiescentConverges | GoServer/manager.go:263-279 | in every reachable quiescent state all members show all others where they are, spoiled pairs aside |
| Replication.UnheardStep | GoServer/manager.go:221-226 | nobody has heard of a client that the server has not added, so a joiner's announcement is a first sighting for everyone |
| Replication.OutgoingStep | CPPClient/websocket/websocketSession.cpp:36-51 | the last position a client has on its way to the server is where the client is |
| Replication.AgreeAfterHandle | CPPClient/main.cpp:256-268 | handling a position keeps a pair in agreement on either side, because a first sighting is answered |
| Replication.AgreeAfterReach | GoServer/manager.go:273-276 | so does a peer loop's coming to any peer, on either side |
| Replication.AgreeAfterDelivery | GoServer/manager.go:276 | and the completion of a channel send of the sender's peer loop |
| Replication.PairAfterAdd | GoServer/manager.go:232-239 | adding a client whose announcement is still to come establishes agreement in both directions with every member |
| Replication.AgreeAfterDrop | CPPClient/main.cpp:525-532 | a batch pass keeps the agreement of everyone whose news it does not lose, or loses only where it is already shown |
| ProtocolMeasure.StepLightens | CPPClient/main.cpp:256-268 | with the membership fixed and no key pressed, every protocol step strictly lowers a measure of unknown pairs, pending moves, uplinks, peer loops, downlinks and exit notices |
| ProtocolMeasure.HandleLightens | CPPClient/main.cpp:253-262 | handling a position costs less than the first sighting or the message it uses up |
| Discovery.DiscoveryTerminates | CPPClient/main.cpp:456-466 | no run of such steps is longer than the measure of the state it starts from |
| Discovery.ReachesStuck | GoServer/manager.go:273-279 | from every reachable state some internal run reaches a state in which nothing more can happen by itself, at rest or blocked |
| Discovery.StuckIffBlocked | GoServer/manager.go:224-229 | such a state is quiescent if and only if no set of joiners wait for each other's channels; if it is not, all joiners do |
| Discovery.BlockedForEver | GoServer/manager.go:276 | joiners that wait for each other do so after every step of anybody |
| Discovery.StuckIsQuiescent | GoServer/manager.go:224-229 | with at most one client being announced, such a state is quiescent |
| Discovery.DiscoveryConverges | CPPClient/main.cpp:256-268 | from every reachable state with at most one client being announced, however the steps are scheduled, they end within the measure, at rest and in agreement |
| JoinDeadlock.ComesToRestIff | GoServer/manager.go:221-230 | every way of running the protocol from a reachable state ends with nothing in flight if and only if at most one client is being announced |
| JoinDeadlock.JoinersCanBlock | GoServer/manager.go:224-229 | with two or more, some run ends with all of them waiting for each other, showing nobody |
| JoinDeadlock.TwoJoinersBlock | GoServer/manager.go:221-230 | two clients that join at once can reach a state in which neither announcement can go on and neither shows the other |
| JoinDeadlock.DoomedAlong | GoServer/manager.go:276 | whatever run follows, blocked joiners stay blocked |
| Recovery.RecoversIff | CPPClient/main.cpp:256-262 | with at most one client being announced, for any two members of any reachable state: every way of running the protocol ends with b showing a at a's coordinates if and only if the pair is in agreement or there is no quiet group with a in it (clients at rest that news of a stranger cannot reach) |
| Recovery.RestedThroughout | CPPClient/main.cpp:256-262 | if some run ends with a misplaced, a was in a quiet group from the start |
| Recovery.CanStayApart | CPPClient/main.cpp:456-466 | if a is in a quiet group and the pair is out of agreement, some run ends with a misplaced |
| Recovery.QuietAfter | CPPClient/main.cpp:256-262 | a quiet group stays quiet under every step that handles no exit and goes only where a peer loop must |
| BatchLoss.ReceiverKeepsIff | CPPClient/main.cpp:525-532 | dropping the k oldest positions leaves the receiver in agreement with a sender if and only if more of the sender's is certain to come, or the sender is certain to meet the receiver, or the pass loses no news of it that is not shown already |
| BatchLoss.SenderKeepsIff | CPPClient/main.cpp:525-532 | and the same for what others will believe of the client that makes the pass, which may lose the only news of somebody it was to answer |
| BatchLoss.DropHarmlessIff | CPPClient/main.cpp:525-532 | for every pass in a reachable state with at most one client being announced, and every pair in agreement: every way of running on ends with b showing a where it is, if and only if the pass keeps the pair in agreement or a is in no quiet group |
| BatchLoss.PassCanMisplace | CPPClient/main.cpp:527-532 | a reachable state in which the pass on a queue of three can be followed by a run to rest that ends with a player shown in the wrong place |
| BatchLoss.DrainedPlayers | CPPClient/main.cpp:263-268 | handling a whole queue leaves each player at its newest position in it, and the others as they were |
| Colours.ColoursStayTrue | CPPClient/main.cpp:253-268 | over any run in which nobody repaints a car, every position on its way and every map entry has its owner's colour |
| Colours.CarsAgree | CPPClient/main.cpp:253-268 | so once nothing of two members is in flight towards each other, b has a's car with a's coordinates and a's colour |
| Colours.PaintIsSent | CPPClient/websocket/websocketSession.cpp:53-56 | a client that changes its colour announces it with its next position |
| Program.StepSimulated | CPPClient/main.cpp:238-535 | every step of the program (relay, write worker, each part of a frame, each server step, in any order) is at most one protocol step, seen through the client's queues; what else those steps do is stated by the rows below |
| Program.SortRuns | CPPClient/main.cpp:66-90 | k rounds of the relay move the k oldest messages, in order, each to the end of the queue of its kind, and change nothing else |
| Program.ToldLast | GoServer/client.go:122-139 | a message told to a client, a delivered position and a departure go behind everything the receivers were told before; a departure goes to every remaining member and to nobody else |
| Program.QueuesConserve | CPPClient/main.cpp:66-90 | over any run of the program, whatever the interleaving, what frames have handled or dropped from a queue, followed by what still waits for it, is what waited at the start followed by that kind of everything the client was told since |
| Program.WriteRuns | CPPClient/websocket/websocketSession.cpp:114-128 | k writes put the k oldest queued positions on the socket, in order, and change nothing else |
| Program.AlarmThins | CPPClient/main.cpp:93-96 | after the alarm a pass over more than two positions drops exactly the older half and clears the flag |
| Program.ProgramIsProtocol | CPPClient/main.cpp:238-535 | every state the program can reach is, queue for queue, a state the protocol can reach; position queues hold positions, and no client is told twice of one departure |
| Program.FrameRuns | CPPClient/main.cpp:238-535 | a whole frame is a run of those parts, and does to the client exactly what FrameOf says and nothing to any other |
| Program.ScreensAgree | CPPClient/main.cpp:256-268 | in every reachable state of the program, frames and arrivals interleaved in any way: with nothing of two members in flight towards each other and no pass having spoiled the pair, b's map has a exactly where a's car is |
| SenderOrder.PerSenderFifo | GoServer/client.go:74-97 | for every interleaving of read loops, joins and departures, a recipient's egress restricted to one sender is in routing order, without duplicates, genuine and addressed to it, and complete for every finished broadcast during which the recipient was a member throughout |
| SenderOrder.AnnouncedFirst | GoServer/manager.go:221-229 | a joiner's initial position, addressed to all its peers, precedes everything else that any other client gets from it which was there for it |
| SenderOrder.CastsStay | GoServer/manager.go:263-271 | along any run what a sender has routed, its announcement first, stays as it was routed |
| SenderOrder.GoneGetsNothing | GoServer/manager.go:242-261 | once a client has left and the sends begun to it are over, nothing more is sent to it in any run |
| SenderOrder.LeavingGoes | GoServer/manager.go:246-251 | and leaving brings that about |
| SenderOrder.LinkVisit | GoServer/manager.go:273-287 | one completed send of a peer loop extends the recipient's log by exactly the cast in progress, once |
| SenderOrder.LinkFinish | GoServer/manager.go:273-279 | when a loop ends, everyone addressed that was there from start to end has the message |
| FanOutRuns.HandlerIsCast | GoServer/manager.go:71-126 | one handler, undisturbed, is the run Route, Begin, then Reach and Deliver for everybody addressed, then Finish of its sender: a position, a parsed colour and a parsed text add exactly one cast with that message's payload and audience, which reached all members, anything else none; and every client gets on its channel what the handler's specification says |
| FanOutRuns.ReadLoopIsRun | GoServer/client.go:74-97 | the read loop is a run of exactly the casts of the messages read, in their order, each once, and what a client gets over the whole loop is what that run gives it |
| Queues.ThreadSafeQueue.Push | CPPClient/gui/threadSafeQueue.hpp:10-17 | appends one element |
| Queues.ThreadSafeQueue.Front | CPPClient/gui/threadSafeQueue.hpp:19-23 | returns the oldest element once there is one |
| Queues.ThreadSafeQueue.Pop | CPPClient/gui/threadSafeQueue.hpp:25-28 | removes exactly the oldest element of a queue that is not empty |
| Queues.ThreadSafeQueue.IsEmpty | CPPClient/gui/threadSafeQueue.hpp:30-33 | true exactly on the empty queue |
| Queues.ThreadSafeQueue.GetSize | CPPClient/gui/threadSafeQueue.hpp:35-38 | the number of queued elements |
| WorkerMonitor.NoLostWakeUp | CPPClient/gui/threadSafeQueue.hpp:10-23 | with any number of producers, a consumer asleep on a non-empty queue always has a notify coming, which wakes it |
| WorkerMonitor.StableFront | CPPClient/gui/threadSafeQueue.hpp:19-28 | first in, first out; the element popped is the one front() showed, despite pushes in between, and the queue popped is not empty |
| WorkerMonitor.ShutdownTerminates | CPPClient/main.cpp:562-565 | once the flag is cleared and the empty message pushed, from every reachable point the worker can advance until it has exited, each advance brings the exit nearer, and at most one more element is taken |
| WorkerMonitor.ShutdownRun | CPPClient/websocket/websocketSession.cpp:114-128 | over any run after shutdown the number of advancing steps is bounded by what remained at its start, and at most one element is taken |
| WorkerMonitor.WorksWhileRunning | CPPClient/main.cpp:66-90 | the worker has not exited while the flag is set |
| WorkerMonitor.TakesAll | CPPClient/gui/threadSafeQueue.hpp:19-28 | whatever is queued can be taken, all of it and in order, by the worker's own steps and the notifies it is owed |
| WorkerMonitor.ShutsDown | CPPClient/main.cpp:562-565 | from every reachable running state the shutdown can be carried through, and the worker exits |
| Relay.LaneByKind | CPPClient/main.cpp:69-88 | both position types go to the position queue, every other typed event to the gui queue, anything without a readable type nowhere |
| Relay.LanesPartition | CPPClient/main.cpp:75-87 | the arrival numbers of a lane are ascending and are exactly the arrivals of its kinds |
| Relay.OnLaneByNumber | CPPClient/main.cpp:75-87 | the k-th element of a lane is the k-th such arrival |
| Relay.RelayWorkerThread | CPPClient/main.cpp:66-90 | the do-while takes one element per round until the flag reads false, and appends to each queue exactly its lane of what it took, in order |
| Pipeline.RelayConserves | CPPClient/main.cpp:66-90 | at every point of every interleaving: what has left a queue followed by what is in it is that lane of the arrivals sorted so far |
| Pipeline.AtMostTwoStale | CPPClient/main.cpp:311-314 | over whole runs and every interleaving, after a gui event has been handled at most two older events are handled later, and those are positions |
| Pipeline.TwoStaleHappens | CPPClient/main.cpp:339-347 | the bound is attained: a reachable state in which two positions of a player are handled after its exit, although they arrived before it |
| Pipeline.GuardedPush | CPPClient/main.cpp:314-374 | what the relay adds between the gate's two reads and the pop does not raise the number of older positions above two |
| Pipeline.NeverPopsEmpty | CPPClient/main.cpp:242-375 | wherever the frame loop pops, the queue is not empty |
| Pipeline.BatchPassHalves | CPPClient/main.cpp:525-533 | under concurrent arrivals the pass drops exactly the older half, rounded down, of what the queue held when it began or has received since, keeps the rest in order, never empties it, and each raising of the flag pays for at most one pass |
| Pipeline.PassRuns | CPPClient/main.cpp:525-533 | with the flag raised and more than two positions queued at the test, the frame loop begins a pass and undisturbed ends it, with the older half dropped, the rest in order and the flag cleared |
| Pipeline.PassIsDue | CPPClient/main.cpp:93-96 | such a state is reachable |
| Pipeline.RelayKeepsOn | CPPClient/main.cpp:66-90 | the relay does not stop while the game runs |
| Pipeline.StopsAfterOne | CPPClient/main.cpp:562-565 | after the game is stopped the relay takes at most one more element in any run |
| Pipeline.RelayStops | CPPClient/main.cpp:562-565 | and with an element there for it, it does stop |
| PlayerMap.PresentIff | CPPClient/main.cpp:339-347 | a player is in the map if and only if the log of handled events has a position for it after its last exit |
| PlayerMap.RecordIs | CPPClient/main.cpp:253-286 | its coordinates are those of its last position, and its colour that of its latest position or colour event |
| PlayerMap.SuffixAgrees | CPPClient/main.cpp:525-532 | handling only a suffix of a position queue gives the same record for every player that occurs in the suffix |
| GameClient.Client.HandlePosition | CPPClient/main.cpp:242-312 | pops one position, records it, and sets the move flag exactly on a first sighting |
| GameClient.Client.HandleGui | CPPClient/main.cpp:314-375 | with at most two positions queued, pops one other event and applies it: a time stamp becomes the time, somebody else's chat line the newest of five and the oldest goes, a colour changes the record of a known player, an exit removes its player, and nothing else changes |
| GameClient.Client.HandleKeys | CPPClient/main.cpp:380-411 | Up alone moves the car two up while y > 1, Down two down while y < 519, Left two left while x > 1, Right two right while x < 1549, and raises the flag; at its border a key does nothing; away from the borders keys add up and opposite keys cancel |
| GameClient.Client.SendIfMoved | CPPClient/main.cpp:456-466 | announces the current position if the flag is set, and clears it |
| GameClient.DropBatch | CPPClient/main.cpp:528-531 | with any batches arriving between evaluations of the loop bound, drops exactly half, rounded down, of everything seen and keeps the newest rest in order |
| GameClient.Client.BatchPass | CPPClient/main.cpp:525-535 | with the flag raised and more than two positions queued, whatever arrives during the pass, drops the older half of all it sees and clears the flag; otherwise does nothing |
| GameClient.Client.Frame | CPPClient/main.cpp:238-535 | the whole frame is the composition of its parts and touches nothing else |
| GameClient.FrameAnnounces | CPPClient/main.cpp:256-262 | with the gate open a frame announces where it leaves the car, once, exactly if a key took effect or it met someone new; no move stays pending |
| GameClient.FrameOneKey | CPPClient/main.cpp:380-466 | a frame with one key moves the car by two in its direction and announces where it then is, unless the car is at that border |
| GameClient.FrameManyKeys | CPPClient/main.cpp:380-466 | away from the borders a frame with any keys moves the car by their sum and announces it exactly if a key is pressed, the flag was raised or somebody is met |
| GameClient.StaysOnScreen | CPPClient/main.cpp:380-411 | over any run of frames the car stays on screen, so its coordinates fit the C++ int |
| GameClient.DrainTime | CPPClient/main.cpp:314-375 | with p positions and g > 0 other events queued, the first gui event is handled in frame max(1, p - 2) and both queues are empty after exactly max(p, max(1, p - 2) + g - 1) frames |
| GameClient.FramesReplay | CPPClient/main.cpp:242-375 | the player map after any run of frames is the replay of the handled events in the order they were handled |
| GameClient.FramesHandle | CPPClient/main.cpp:242-375 | without a batch pass, what frames have handled of each queue and what is left of it make up the queue: every event once, in order |
| GameClient.FramesDisplay | CPPClient/main.cpp:347-362 | after any run of frames the display is the five newest of the lines of others handled, newest first, before those shown at the start |
| GameClient.FramesShowTime | CPPClient/main.cpp:325-329 | the time shown is that of the last time stamp handled |
| Session.WebsocketSession.SendPosition | CPPClient/websocket/websocketSession.cpp:36-51 | queues exactly the given position with the session's colour and identifier if the gate is open, and never returns true |
| Session.WebsocketSession.SendColorUpdate | CPPClient/websocket/websocketSession.cpp:53-75 | stores the colour in any case and writes it past the queue if the gate is open |
| Session.WebsocketSession.SendTextMessage | CPPClient/websocket/websocketSession.cpp:77-102 | writes the text past the queue if the gate is open, an empty colour meaning the session's |
| Session.WebsocketSession.WorkerWrite | CPPClient/websocket/websocketSession.cpp:114-128 | pops the queue in order, one element per round until the flag reads false, and the socket gets, in that order, exactly those whose write works |
| Session.WebsocketSession.CloseConnection | CPPClient/websocket/websocketSession.cpp:197-201 | clears the flag and then queues the empty message |
| TextBuffer.Buffer.TypeKey | CPPClient/main.cpp:480-485 | read up to its first NUL, the buffer becomes the bounded append of the key |
| TextBuffer.Buffer.TypeKeys | CPPClient/main.cpp:473-488 | the printable keys before the first that reports no more are appended, in order, as far as there is room for 105 characters |
| TextBuffer.Buffer.Backspace | CPPClient/main.cpp:490-495 | read up to its first NUL, the buffer loses its last character if it has one |
| TextBuffer.BackspaceUndoes | CPPClient/main.cpp:473-495 | a backspace takes back the key typed in its own or the previous frame, and no more |
| TextBuffer.CStringOf | CPPClient/main.cpp:217-219 | a C string function sees exactly the characters before the terminator |
| TextBuffer.Buffer.EditFrames | CPPClient/main.cpp:473-495 | frame after frame, the array holds the keys and backspaces of all frames so far |
| TextBuffer.AlwaysBounded | CPPClient/main.cpp:480-495 | after any frames of keys and backspaces the text has at most 105 characters, all in 32..125 |
| TextBuffer.ArrayBounded | CPPClient/main.cpp:480-495 | what the array holds is so bounded at any time |
| WireFormat.TextFrameFits | CPPClient/websocket/websocketSession.cpp:84-88 | every chat frame with its terminator fits 300 bytes, for 36-character identifiers and 6-character colours |
| WireFormat.ArrayFrameFits | CPPClient/websocket/websocketSession.cpp:84-88 | in particular the frame rendered from the input array as it stands |
| WireFormat.PositionFrameFits | CPPClient/websocket/websocketSession.cpp:41-43 | so does every position frame, for any 32-bit coordinates |
| WireFormat.PositionFrameHas | CPPClient/websocket/websocketSession.cpp:41-43 | a position frame has both its types and, each under its own key, the colour, the identifier, X and Y |
| WireFormat.TextFrameHas | CPPClient/websocket/websocketSession.cpp:84-88 | so has a chat frame its colour, sender, recipient, text and scope |
| WireFormat.DecimalReads | CPPClient/websocket/websocketSession.cpp:43 | a rendered number reads back as the number |
| UuidGenerator.GenerateUuidV4 | CPPClient/gui/uuidGenerator.hpp:12-37 | the counted loops render the draws group by group |
| UuidGenerator.RenderIsVersion4 | CPPClient/gui/uuidGenerator.hpp:16-36 | every 31 draws in range give a 36-character UUID in version 4 form (section 4.4 of RFC 4122) |
| UuidGenerator.RecoverRender | CPPClient/gui/uuidGenerator.hpp:16-36 | the draws can be read back from the text |
| UuidGenerator.RenderInjective | CPPClient/gui/uuidGenerator.hpp:12-37 | different draws give different UUIDs |
| Manager.Manager.AddClient | GoServer/manager.go:232-239 | adds a new client and keeps the departure invariant |
| Manager.Manager.RemoveClient | GoServer/manager.go:242-261 | called any number of times: a member is closed once, deleted, and its exit sent once to every remaining peer; anyone else changes nothing |
| Manager.Manager.DeparturesCount | GoServer/manager.go:242-261 | announcements plus current members equal additions |
| Manager.Manager.BroadcastUpdateToPeers | GoServer/manager.go:273-279 | appends the message once to every client but the sender's, in any iteration order |
| Manager.Manager.SendUpdateToPeer | GoServer/manager.go:281-287 | appends it only to clients with the named identifier |
| Manager.Manager.BroadcastNewClientInitPosition | GoServer/manager.go:263-271 | every peer gets the joiner's position at the origin with its colour |
| Manager.Manager.RouteEvent | GoServer/manager.go:71-135 | kind by kind: a position goes as it is to every connected client with another identifier, a colour and a broadcast text likewise, a directed text to the client it names, a debug position back to its sender; what does not parse and unknown types have no effect, and unknown types are refused |
| Manager.ShareIs | GoServer/manager.go:71-126 | one message gives every client it concerns exactly one event, and nobody else any |
| Manager.SharesAre | GoServer/client.go:74-97 | over the read loop a client gets one event for each message that concerns it, in their order |
| Manager.ReadableIs | GoServer/client.go:74-92 | the loop routes every message up to the first it cannot read |
| Manager.Manager.RouteMessages | GoServer/client.go:74-97 | the read loop gives every peer exactly its share of the messages before the first unreadable one, in order |
| Manager.Manager.ReadMessages | GoServer/client.go:56-98 | however the loop ends, the client is then closed and removed, and announced unless the write goroutine had done that |
| Manager.Manager.WriteOne | GoServer/client.go:122-158 | one wake-up writes the next egress message, a ping, the time or a close frame; a failed message is survived, a failed ping or time is not |
| Manager.Manager.WriteLoop | GoServer/client.go:122-160 | the loop takes the next stretch of the channel and writes what Written says, whose meaning the next rows give |
| Manager.WrittenAt | GoServer/client.go:122-158 | frame by frame: each write that works puts one frame on the wire, a message round the next message of the channel, a ping tick a ping, a clock tick the time, a closed channel the goodbye |
| Manager.RoundsEnd | GoServer/client.go:122-158 | the loop goes on past failed messages and ends exactly at a close or a failed ping or time |
| Manager.WrittenCarries | GoServer/client.go:122-139 | among the frames written, the messages are the channel's next ones in the order they were sent, each once, without exactly those whose write failed |
| Events.SurvivingAt | GoServer/client.go:135-138 | those whose write works, each at the place their order gives it |
| Manager.AllCarried | GoServer/client.go:122-139 | if no message write fails they are exactly the next stretch of the channel |
| Manager.GoodbyeLast | GoServer/client.go:125-133 | only the very last frame, of the round that ends the goroutine, can be a close frame |
| Manager.Manager.WriteMessages | GoServer/client.go:109-160 | afterwards the client is closed and removed, and announced unless the read goroutine had done that |
| Manager.Manager.ServeWS | GoServer/manager.go:181-230 | accepted exactly if no parameter is missing, the key is live and the upgrade succeeds, and then one new member is added whose position at the origin goes to all others; upgrade failed exactly if all but the last holds; refused otherwise; the key is used up before the upgrade |
| Otp.RetentionMap.NewOTP | GoServer/otp.go:27-35 | stores the key with its creation time |
| Otp.RetentionMap.VerifyOTP | GoServer/otp.go:40-48 | accepts exactly a live key, and removes it |
| Otp.RetentionMap.Sweep | GoServer/otp.go:56-61 | in any iteration order, with the clock read anew for each entry, the result lies between the filters at the loop's start and end times |
| Otp.SweepIsFilter | GoServer/otp.go:57-61 | with one reading for the whole loop the result does not depend on the iteration order |
| Otp.SweptKeys | GoServer/otp.go:57-61 | every key removed had expired by the end of the sweep, every key left had not by its start |
| Admission.AdmissionConserves | GoServer/manager.go:184-224 | over any timed run, sweeps interleaved key by key, issued keys are partitioned into live, consumed and expired, only keys older than the period expire, and clients map injectively to keys consumed for them |
| Admission.RequestConsumes | GoServer/manager.go:183-224 | a request that names a live key and misses no parameter consumes it, and is accepted and registers its client if the upgrade succeeds, else fails and registers nobody; any other request is refused and changes nothing |
| Admission.KeyWorks | GoServer/otp.go:27-48 | a key is good: after its issue and any run that does not use it and has not gone on longer than the period, a full request with it is accepted and its client registered |
| Admission.ServerKeyWorks | GoServer/manager.go:64 | for the server that is five seconds |
| Admission.SweepRuns | GoServer/otp.go:56-61 | at any time it may begin, a sweep can run to its end, and then exactly the keys older than the period are gone |
| Admission.MemberUntil | GoServer/manager.go:232-261 | a registered client is a member until it departs, and then never again |
| Admission.NeverTwice | GoServer/otp.go:40-48 | a key that was consumed or swept is refused at the end of every run that follows |
| Admission.AgeBound | GoServer/otp.go:52-61 | if no more than a gap passes between the beginning of a sweep and the end of the next, no key is accepted later than retention period plus gap after it was issued |
| Admission.NeverSweptYoung | GoServer/otp.go:58-60 | only the sweep's own visit, of a key older than the retention period, makes a key disappear unused |
| Admission.ServerAgeBound | GoServer/manager.go:64 | with the server's five seconds and 400 ms ticks the bound is 5.4 seconds plus how late after its tick a sweep ends |
| KeepAlive.PingIntervalInside | GoServer/client.go:13-21 | the ping interval is below the pong wait, and positive exactly for waits above one nanosecond |
| KeepAlive.InvStep | GoServer/client.go:66-128 | waiting, a ping and a pong keep that the next pong is handled before the deadline in force |
| KeepAlive.PingsAnswered | GoServer/client.go:101-128 | over any run every ping sent is matched by a pong handled or is still unanswered |
| KeepAlive.NeverExpires | GoServer/client.go:66-105 | if pings are written within lag of their ticks and pongs handled within prompt of their pings, the first also counting the start skew, and prompt + lag is at most pongWait - pingInterval, the read deadline has not passed at any moment of any run; and it lies pongWait after the last pong, which is all a silent peer has left |
| KeepAlive.NeverExpiresIff | GoServer/client.go:13-21 | the bound is exact: no run expires if and only if prompt + lag is at most pongWait - pingInterval |
| KeepAlive.Read | GoServer/client.go:56-105 | the read goroutine with its pong handler, driven along any run of the connection, is cut off exactly if at some moment the time is past the deadline its handler has set, and under those terms never |

## Left out

- Liveness of the program's own loops: that goroutines, threads and frames keep being scheduled. What is proved is
  safety, that runs end, and where they can end.
- The lock of the client map: a departure's exit broadcast holds it while it sends, so a blocked joiner also blocks
  joins and departures; in the model they go on.
- Data races of the Go server: ranging over or changing a map without the lock can abort the program; the model
  takes each map operation as atomic.
- Colour agreement between clients: colour changes overtake queued positions, so an older position may restore
  an old colour; the protocol model lets colours change at any time, and claims them only for runs without
  repainting (Colours).
- Departed players staying away: the two client queues reorder exits and positions. `Pipeline.AtMostTwoStale`
  bounds how many stale positions can follow an exit, and `Pipeline.TwoStaleHappens` shows
  that they do.
- The text of messages: JSON parsing, escaping and minification are library code; messages are datatypes, and
  only the length of rendered frames is modelled. A position without the expected fields is not modelled.
- Replication.InvStep: the exit broadcast of a departure is one step, because exit notices reach their own
  queue and are handled in any order in the model.
- Program.ProgramIsProtocol: a part of a frame and a relay round are one step each; Pipeline takes them apart
  into queue operations.
- Manager.Manager.RouteMessages: the membership is fixed while the loop runs; SenderOrder has clients joining and
  leaving in the middle of a loop.
- Manager.Manager.ReadMessages: the membership is fixed until the final removal, likewise.
- GameClient.Client.Frame: nothing arrives during the frame (Program and Pipeline have arrivals anywhere), and the
  mouse, the text input and the sending of chat are not part of it (TextBuffer has the text input).
- Session.WebsocketSession.CloseConnection: joining the threads (WorkerMonitor has the write worker's exit),
  cancelling and closing the socket.
- The order of a debug echo relative to the write goroutine's frames, which the two goroutines race for.
- The local echo of a sent chat line, which only prepends it to the displayed five.
- Queue sizes beyond 31 bits, where `getSize` would truncate, and pong waits so long that nine times their
  nanoseconds overflow 64 bits.
- Mouse handling, colour palette, drawing, login over HTTP, TLS and the sockets themselves, and joining the
  socket's read thread at shutdown, which waits for a read to return.
