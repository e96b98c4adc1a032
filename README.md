# Emergency-notification dashboard: a Dafny model of its client-side core

The dashboard is a React application for an emergency service. It shows
emergency events and a drone fleet, and talks to a server over a WebSocket and
an HTTP "TCP session". For development it simulates almost everything
locally. This project models the logic behind that simulation and the
connection handling, and proves properties of it:

- `common.dfy` (module `Common`): shared pieces.
  - An `Option` type and uniform draws: `Math.random()` is an explicit real in [0, 1).
  - Decimal printing of non-negative integers, as a template literal does it, proved injective.
  - `startsWith`, and `toLowerCase` on Latin and Cyrillic letters.
- `events.dfy` (module `Events`): the event generator of `eventUtils.js`.
  - Batches of events sampled from the catalogues, with an occasional "evacuation" event in front.
  - Single events, per-severity statistics.
  - The cached list under the storage key `emergency_events`.
- `simulation.dfy` (module `Simulation`): the drone fleet simulator of `simulationUtils.js`.
  - Each drone is a mutable object (class `Drone`).
  - One update tick is specified on the value `DroneState` by `TickDrone`.
  - The three cadence gates (`lastUpdates`) live in class `Simulator`.
- `assignment.dfy` (module `Assignment`): `assignDronesToEvents` of `DroneData.js`.
  - It writes event bindings into the shared drone objects in place.
  - It also covers how `generateSimulatedData` sizes the fleet.
- `server_context.dfy` (module `ServerContext`): the connection state of `ServerContext.js`.
  - Class `ServerProvider` holds servers, current server, connection flag, socket and session id.
  - Every method is proved equal to a function on the value `Session`.
  - The covered operations are adding and removing servers, connecting (mock socket or WebSocket, with its open, close and timeout events), the HTTP session with its simulated fallback, and disconnecting.
- `mock_server.dfy` (module `MockServer`): the stand-in server that `connectToServer` sets up for a local server.
  - Its initial events and test statistics.
  - The events it injects later, and the 20-entry cache it keeps of them.
  - Its five mock drones, with their own time-based update rule (class `MockDrone`).
- `events_list.dfy` (module `EventsList`): the event list view of `EventsList.js`.
  - Loading from the cache on mount, and the reaction to socket messages.
  - The severity CSS class and chip colour.

Inputs the code takes from its environment are explicit parameters:

- every `Math.random()` draw;
- `Date.now()`, as milliseconds;
- the page's host name;
- the outcome of the HTTP request;
- the sine and cosine of a heading, and the homeward step of a returning drone.

Where the system's description and the code disagree, the model follows the code. Four places matter:

- A remote WebSocket that fails does **not** fall back to simulation in `connectToServer`. Only `connectTcpToServer` falls back (`ServerContext.RemoteTimeoutLeavesDisconnected`).
- The fleet simulator drains exactly one battery unit per 2-minute battery cadence. The time-and-speed-dependent drain (rate × minutes × (1 + speed/100)) belongs to the mock server's drones only (`MockServer.MockUpdate`).
- `generateRandomEvents` adds an evacuation event when its draw is below 0.3. The mock server adds one when its draw is above 0.5.
- The mock server caps the cached list at 20 events. The list view prepends without a cap and writes the uncapped list back (`EventsList.CacheIsPrefixOfList`). Because the view writes first and the mock then prepends to what the view wrote, each injected event is cached twice (see "## Findings").

## Model

| member | source | states |
|---|---|---|
| Common.RandomIndex | frontend/src/utils/eventUtils.js:25 | `Math.floor(u * n)` is an index below `n` for a non-empty range |
| Common.GetRandomItem | frontend/src/utils/eventUtils.js:24-26 | an item exists exactly when the array is non-empty, and it is one of the array's items |
| Common.NatToString | frontend/src/utils/eventUtils.js:50 | the printed number is non-empty, made of digits, one digit long exactly below 10 |
| Common.NatToStringInjective | frontend/src/utils/eventUtils.js:50 | distinct numbers print differently |
| Common.PrefixedNumberInjective | frontend/src/utils/simulationUtils.js:88 | a fixed prefix followed by a printed number determines the number |
| Common.LowerIdempotent | frontend/src/components/EventsList.js:84 | lower-casing twice is lower-casing once |
| Events.SampledEvent | frontend/src/utils/eventUtils.js:43-58 | a sampled event has the given id and time, status "Активно", a catalogue type and severity, a "city, street" catalogue location, and title "ЧС: " + type |
| Events.EvacuationEvent | frontend/src/utils/eventUtils.js:62-76 | the evacuation event is critical, of type "Эвакуация", stamped now, with an "evacuation-" id and a catalogue location |
| Events.NumEvents | frontend/src/utils/eventUtils.js:35 | a positive count is used as is; otherwise 3 to 7 events |
| Events.BatchCreatedAt | frontend/src/utils/eventUtils.js:40-41 | the creation time is now minus a whole number of hours, 0 to 23 |
| Events.SampledBatch | frontend/src/utils/eventUtils.js:38-59 | the loop's first n events number n |
| Events.SampledBatchAt | frontend/src/utils/eventUtils.js:38-59 | event i of the batch is built from draw i with index i |
| Events.GenerateRandomEvents | frontend/src/utils/eventUtils.js:33-82 | the result is the evacuation event (when the draw is below 0.3) followed by the sampled events in loop order; its length is count or count + 1, or 3 to 8 without a count |
| Events.SampledBatchProperties | frontend/src/utils/eventUtils.js:38-59 | every sampled event has catalogue fields, is at most 23 whole hours old, and carries id evt-now-i; the ids are pairwise distinct |
| Events.BatchIdInjective | frontend/src/utils/eventUtils.js:50 | two batch ids of the same instant are equal only for the same index |
| Events.BatchIdsDistinct | frontend/src/utils/eventUtils.js:50-68 | all ids of one batch, the evacuation event's included, are pairwise distinct |
| Events.EvacuationIdIsNotBatchId | frontend/src/utils/eventUtils.js:50-68 | an evacuation id never equals a sampled id |
| Events.GenerateRandomEvent | frontend/src/utils/eventUtils.js:88-116 | the sampled event with id evt-now, unchanged when the draw is at least 0.1; otherwise id, title, description, severity and type are the evacuation template, while location, time and status are kept |
| Events.GenerateStats | frontend/src/utils/eventUtils.js:147-167 | `active` is the list length, `total` exceeds it by 0 to 4, and each of the four severity keys counts exactly the events with that severity |
| Events.SeverityPartition | frontend/src/utils/eventUtils.js:156-160 | the four per-severity counts and the count of unknown severities add up to the list length |
| Events.SaveEvents | frontend/src/utils/eventUtils.js:123-126 | saving returns the events unchanged, writes the events key and leaves every other key as it was |
| Events.LoadEvents | frontend/src/utils/eventUtils.js:132-140 | nothing stored or text that does not parse loads as the empty list |
| Events.SaveThenLoad | frontend/src/utils/eventUtils.js:123-140 | loading right after saving returns exactly the saved list |
| Simulation.LabelInjective | frontend/src/utils/simulationUtils.js:6 | the five status texts are distinct |
| Simulation.RandomNumber | frontend/src/utils/simulationUtils.js:42-45 | the draw lies in [min, max], strictly below max when min < max |
| Simulation.RandomInt | frontend/src/utils/simulationUtils.js:42-45 | the integer draw lies in [min, max) |
| Simulation.GenerateCoordinates | frontend/src/utils/simulationUtils.js:54-62 | each coordinate lies within maxDistance of the base point |
| Simulation.AvailableStatuses | frontend/src/utils/simulationUtils.js:253-255 | a status is offered exactly when it is neither the current one, nor disabled, nor returning |
| Simulation.AvailableStatusesCount | frontend/src/utils/simulationUtils.js:253-256 | an eligible drone always has exactly two statuses to pick from |
| Simulation.DisabledIsTerminal | frontend/src/utils/simulationUtils.js:152 | a disabled drone is left exactly as it is |
| Simulation.TickBattery | frontend/src/utils/simulationUtils.js:155-168 | only the battery cadence changes the charge, by exactly one and never below zero |
| Simulation.EmptyBatteryDisables | frontend/src/utils/simulationUtils.js:164-168 | a battery tick that reaches 0 disables and stops the drone and skips the rest of the tick |
| Simulation.LowBatteryGoesHome | frontend/src/utils/simulationUtils.js:159-161 | after a battery tick a drone at 5 or below is returning, or already parked and disabled |
| Simulation.ReturningSnapsHome | frontend/src/utils/simulationUtils.js:183-194 | a returning drone within 0.0005 of home is put on it with speed 0; it is disabled at charge 5 or below and otherwise idle |
| Simulation.TickPreservesSane | frontend/src/utils/simulationUtils.js:148-259 | speed, altitude and charge stay within the drone limits after every tick |
| Simulation.TickIsGradual | frontend/src/utils/simulationUtils.js:201-238 | one tick changes altitude by at most 4 m, and speed by at most 2 km/h unless the drone stops |
| Simulation.WaitingStops | frontend/src/utils/simulationUtils.js:239-242 | a waiting drone has speed 0 after a position tick |
| Simulation.TickTransitions | frontend/src/utils/simulationUtils.js:148-259 | the allowed status changes: disabled or returning only at charge 5 or below; leaving "returning" only by being parked at home; any other change is the random one, which needs charge above 5 |
| Simulation.RunBatteryMonotone | frontend/src/utils/simulationUtils.js:155-156 | over any series of updates the charge never grows and never goes negative |
| Simulation.RunDisabledStays | frontend/src/utils/simulationUtils.js:152 | a disabled drone stays unchanged over any series of updates |
| Simulation.RunPreservesSane | frontend/src/utils/simulationUtils.js:126-262 | the drone limits hold over any series of updates |
| Simulation.Drone.constructor | frontend/src/utils/simulationUtils.js:88-108 | the drone object holds exactly the given record |
| Simulation.Drone.Bind | frontend/src/components/DroneData.js:120-124 | only the two binding fields are written |
| Simulation.Drone.Tick | frontend/src/utils/simulationUtils.js:148-259 | the in-place update leaves the drone in the state `TickDrone` gives |
| Simulation.TickDrone | frontend/src/utils/simulationUtils.js:148-259 | a tick never changes the name, the event binding or the home point, and without the position cadence it does not move the drone |
| Simulation.Drone.DrainBattery | frontend/src/utils/simulationUtils.js:155-161 | the battery block in place equals the drain step |
| Simulation.Drone.UpdatePosition | frontend/src/utils/simulationUtils.js:172-243 | the position block in place equals the move step |
| Simulation.Drone.MoveHome | frontend/src/utils/simulationUtils.js:173-211 | the homeward branch in place equals the return step |
| Simulation.Drone.MoveRandomly | frontend/src/utils/simulationUtils.js:212-238 | the patrol branch in place equals the patrol step |
| Simulation.Drone.MaybeChangeStatus | frontend/src/utils/simulationUtils.js:246-257 | the status block in place equals the status step |
| Simulation.Cadence | frontend/src/utils/simulationUtils.js:130-146 | after a cadence fires, it fires again exactly once its full interval has passed; a cadence that did not fire is unaffected |
| Simulation.Due | frontend/src/utils/simulationUtils.js:130-141 | a cadence stamped at or after the call is not due; battery and status stamped together fall due together |
| Simulation.Advance | frontend/src/utils/simulationUtils.js:143-146 | stamps never go back, a second call at the same instant fires nothing, and equal battery and status stamps stay equal |
| Simulation.PositionRateLimit | frontend/src/utils/simulationUtils.js:139-144 | two calls less than 2 s apart never both move the drones |
| Simulation.DroneKeyInjective | frontend/src/utils/simulationUtils.js:88 | distinct drone numbers give distinct keys |
| Simulation.SpawnDrone | frontend/src/utils/simulationUtils.js:86-108 | a new drone is named "Дрон i", is never disabled, is unbound, has home at the base point, a position within maxDistance, and altitude, speed and charge within the option ranges |
| Simulation.DefaultSpawnIsSane | frontend/src/utils/simulationUtils.js:71-108 | with the default options a new drone is within the limits and charged 50 to 99 |
| Simulation.DroneKeysDistinct | frontend/src/utils/simulationUtils.js:85-88 | the keys drone-1 .. drone-count are pairwise distinct |
| Simulation.Simulator.constructor | frontend/src/utils/simulationUtils.js:29-33 | all three cadences start at the load time |
| Simulation.Simulator.SimulateDroneData | frontend/src/utils/simulationUtils.js:70-119 | count fresh, distinct drone objects under distinct keys drone-1 .. drone-count, each the spawned record for its number; the clock is reset to now |
| Simulation.Simulator.UpdateSimulatedDrones | frontend/src/utils/simulationUtils.js:126-262 | no data gives an empty fleet and keeps the clock; otherwise the same fleet is returned, fired cadences are re-stamped, and every drone is ticked with the gates due at the call |
| Simulation.BatteryColor | frontend/src/utils/simulationUtils.js:269-274 | red exactly up to 10, orange exactly above 10 up to 30, yellow exactly above 30 up to 60, green exactly above 60 |
| Simulation.BatteryColorMonotone | frontend/src/utils/simulationUtils.js:269-274 | more charge never shows a colour lower on the red-orange-yellow-green scale |
| Assignment.FindEvent | frontend/src/components/DroneData.js:117 | an event is found exactly when some event carries the id, and the one found carries it |
| Assignment.FindEventFirst | frontend/src/components/DroneData.js:117 | the lookup returns the first event carrying the id |
| Assignment.Info | frontend/src/components/DroneData.js:121-124 | location and type fall back to "Неизвестная локация" and to the title, then "Неизвестное событие"; neither is empty |
| Assignment.Assignment | frontend/src/components/DroneData.js:87-129 | no events or no drones leave the records untouched; otherwise only the two binding fields change |
| Assignment.AssignDronesToEvents | frontend/src/components/DroneData.js:87-129 | the same fleet is returned, and its drones' records become the assignment of their old records |
| Assignment.CollectEventIds | frontend/src/components/DroneData.js:93-97 | one id per event, in order: the event's id or its placeholder |
| Assignment.ClearBindings | frontend/src/components/DroneData.js:108-111 | every drone loses both bindings in place, and nothing else changes |
| Assignment.PairDrones | frontend/src/components/DroneData.js:114-126 | the first min(#drones, #events) drones are paired in place; the rest are unchanged |
| Assignment.PairDrone | frontend/src/components/DroneData.js:115-125 | one drone is bound to id i exactly when an event carries that id |
| Assignment.FindDistinct | frontend/src/components/DroneData.js:117 | with distinct ids, looking up event i's id finds event i |
| Assignment.PairsInOrder | frontend/src/components/DroneData.js:105-126 | for i below the number of events, drone i is bound to event i's id and to the info of the first event carrying it whenever the id is present; with distinct ids that is event i's own info; later drones are unbound |
| Assignment.BoundIdsDistinct | frontend/src/components/DroneData.js:105-126 | distinct ids give the bound drones distinct events, for any fleet when there are events (the bindings are cleared first) and for an unbound fleet otherwise |
| Assignment.PlaceholderNeverBinds | frontend/src/components/DroneData.js:96-126 | an event without an id, whose placeholder matches no event, leaves its drone unbound |
| Assignment.EveryEventCovered | frontend/src/components/DroneData.js:105-126 | with at least as many drones as events, every event id is bound to some drone |
| Assignment.DroneCount | frontend/src/components/DroneData.js:137 | the fleet has 3 to 10 drones: 5 without events, the event count within 3..10, clamped otherwise |
| ServerContext.ListedLocalIsLocal | frontend/src/context/ServerContext.js:122-126 | every address the server list treats as local is also local for the context |
| ServerContext.ListedAsLocal | frontend/src/components/ServerList.js:60-62 | the server list's local test accepts only non-empty addresses outside 10.x.x.x |
| ServerContext.IsLocalMode | frontend/src/context/ServerContext.js:122-126 | an address is local for the context exactly when the server list calls it local, it is in 10.x.x.x, or it is the page's own host name |
| ServerContext.TenNetworkIsLocalOnlyInContext | frontend/src/components/ServerList.js:60-62 | a 10.x.x.x address is local for the context but not for the server list |
| ServerContext.DefaultServersAreLocal | frontend/src/context/ServerContext.js:21-46 | every default server has an address, and it is local |
| ServerContext.CloseSocket | frontend/src/context/ServerContext.js:116-118 | the mock socket clears the connection at once; a real one only starts closing; no socket changes nothing |
| ServerContext.CloseSocketIdempotent | frontend/src/context/ServerContext.js:141-144 | closing twice is closing once |
| ServerContext.Connect | frontend/src/context/ServerContext.js:114-505 | the result is true exactly when the server has an address; a local server is connected at once through the mock socket; a remote one gets a connecting WebSocket and is not yet current |
| ServerContext.SocketOpened | frontend/src/context/ServerContext.js:480-485 | a connecting WebSocket that opens makes its server the connected, current one |
| ServerContext.SocketClosed | frontend/src/context/ServerContext.js:487-492 | a closed WebSocket leaves the context disconnected with no socket |
| ServerContext.ConnectTimeout | frontend/src/context/ServerContext.js:473-478 | after 5 s a WebSocket that is not open is closed; otherwise nothing changes |
| ServerContext.RemoteConnectThenOpen | frontend/src/context/ServerContext.js:470-499 | a remote server becomes connected and current once its socket opens |
| ServerContext.RemoteTimeoutLeavesDisconnected | frontend/src/context/ServerContext.js:470-500 | a remote server that never answers leaves the context disconnected, with no socket and no new session |
| ServerContext.SimulatedServer | frontend/src/context/ServerContext.js:557-561 | the simulated server keeps id, address and port, is flagged simulated, and its name gets " (симуляция)" |
| ServerContext.ConnectTcpFailsOnlyOnRefusal | frontend/src/context/ServerContext.js:508-578 | the session fails exactly for a remote server whose reply is not "connected", and then nothing changes |
| ServerContext.ConnectTcpFrame | frontend/src/context/ServerContext.js:508-578 | a session never changes the connection flag, socket or server list; the current server changes only on a failed request, to its simulated copy |
| ServerContext.SimulatedSessionId | frontend/src/context/ServerContext.js:554 | a simulated session id starts with "simulated-" and continues with the clock reading |
| ServerContext.ConnectTcp | frontend/src/context/ServerContext.js:508-578 | a failed attempt changes nothing, and only the session id and the current server are ever written |
| ServerContext.ConnectTcpSessionIds | frontend/src/context/ServerContext.js:508-578 | per case: no address gives a simulated id; a local address gives "local-session-123"; a "connected" reply gives the reply's id; a failed request gives a simulated id and makes the simulated copy current; only the last changes the current server |
| ServerContext.Disconnect | frontend/src/context/ServerContext.js:581-588 | disconnecting clears the connection, current server and session, closes the socket and keeps the servers |
| ServerContext.DisconnectIdempotent | frontend/src/context/ServerContext.js:581-588 | a second disconnection changes nothing |
| ServerContext.WithoutServer | frontend/src/context/ServerContext.js:104 | the filter keeps exactly the servers whose id differs, never more |
| ServerContext.WithoutServerAppend | frontend/src/context/ServerContext.js:104 | the filter keeps order: it distributes over concatenation |
| ServerContext.WithoutAbsentServer | frontend/src/context/ServerContext.js:104 | removing an id nobody has leaves the list unchanged |
| ServerContext.ServerRemoved | frontend/src/context/ServerContext.js:103-111 | the list is filtered; removing the current server also disconnects; nothing else changes |
| ServerContext.NewServer | frontend/src/context/ServerContext.js:94-97 | the new server has the form's fields and an id from the form or else the clock |
| ServerContext.ServerAdded | frontend/src/context/ServerContext.js:93-100 | exactly that server is appended, and it is returned |
| ServerContext.AddThenRemove | frontend/src/context/ServerContext.js:93-111 | adding a server with a fresh id and then removing it restores the list |
| ServerContext.ServerProvider.constructor | frontend/src/context/ServerContext.js:15-54 | the saved servers or the four defaults, the saved current server, and nothing connected |
| ServerContext.ServerProvider.CloseSocketIfAny | frontend/src/context/ServerContext.js:116-118 | the state after closing is the close step of the state before |
| ServerContext.ServerProvider.ConnectToServer | frontend/src/context/ServerContext.js:114-505 | the new state and the result are those `Connect` gives |
| ServerContext.ServerProvider.OnOpen | frontend/src/context/ServerContext.js:480-485 | the open handler's state change is `SocketOpened` |
| ServerContext.ServerProvider.OnClose | frontend/src/context/ServerContext.js:487-492 | the close handler's state change is `SocketClosed` |
| ServerContext.ServerProvider.OnConnectTimeout | frontend/src/context/ServerContext.js:473-478 | the timer's state change is `ConnectTimeout` |
| ServerContext.ServerProvider.ConnectTcpToServer | frontend/src/context/ServerContext.js:508-578 | the new state and the result are those of the session function |
| ServerContext.ServerProvider.DisconnectFromServer | frontend/src/context/ServerContext.js:581-588 | the state change is `Disconnect` |
| ServerContext.ServerProvider.AddServer | frontend/src/context/ServerContext.js:93-100 | the state change and the returned server are those of `ServerAdded` |
| ServerContext.ServerProvider.RemoveServer | frontend/src/context/ServerContext.js:103-111 | the state change is `ServerRemoved` |
| MockServer.MockEvent | frontend/src/context/ServerContext.js:177-198 | mock event i has id i+1, catalogue fields, and an age of at most 23 hours |
| MockServer.MockBatch | frontend/src/context/ServerContext.js:177-198 | the loop's first n events number n |
| MockServer.MockBatchAt | frontend/src/context/ServerContext.js:177-198 | event i of the mock list is built from draw i |
| MockServer.GenerateInitialEvents | frontend/src/context/ServerContext.js:154-222 | the evacuation event (when the draw exceeds 0.5) followed by the sampled events; 3 to 8 in all; the list is written to the cache |
| MockServer.MockBatchIds | frontend/src/context/ServerContext.js:189 | the sampled mock events carry the ids "1", "2", ... in order |
| MockServer.NumberedIdsDistinct | frontend/src/context/ServerContext.js:189 | events numbered in order have distinct ids |
| MockServer.MockIdsDistinct | frontend/src/context/ServerContext.js:177-217 | the initial mock list, its evacuation event included, has pairwise distinct ids |
| MockServer.GenerateNewEvent | frontend/src/context/ServerContext.js:225-270 | a sampled event with id new-now; with chance 0.1 the evacuation template replaces title, description, severity and type, but the id is kept |
| MockServer.TestStats | frontend/src/context/ServerContext.js:283-292 | total is two more than active, and the invented per-severity counts lie in their ranges |
| MockServer.PrependCapped | frontend/src/context/ServerContext.js:308 | the new event comes first, the saved ones follow in order, and at most 20 are kept |
| MockServer.PrependCappedTwice | frontend/src/context/ServerContext.js:297-309 | two injections put the newer event first and the older second, still capped |
| MockServer.CacheInjectedEvent | frontend/src/context/ServerContext.js:305-312 | the cache gets the event in front, capped at 20; an empty or missing cache reads as an empty list; only non-empty text that does not parse is left as it is |
| MockServer.CacheBounded | frontend/src/context/ServerContext.js:307-309 | whenever the cache can be read (empty text included), it then holds min(old + 1, 20) events, the newest first |
| MockServer.InitialMockDrone | frontend/src/context/ServerContext.js:326-349 | a mock drone starts near the base point with altitude, speed and charge in the source's ranges, "Активен", and possibly bound to event 1, 2 or 3 |
| MockServer.ReportedStatus | frontend/src/context/ServerContext.js:389-400 | no charge gives "Разряжен", below 10 "Критический заряд", 10 up to 30 "Низкий заряд", and 30 or more keeps the status |
| MockServer.Displacement | frontend/src/context/ServerContext.js:368-372 | a heading component in [-1, 1] moves a coordinate by at most the speed factor either way |
| MockServer.MockMove | frontend/src/context/ServerContext.js:363-372 | only heading and position change; the heading turns by the turn rate; each coordinate moves by at most speed × 0.00001 / 3.6 |
| MockServer.MockJitter | frontend/src/context/ServerContext.js:374-380 | only altitude and speed change; both end in their ranges; from within range they move by at most 2.5 m and 1.5 km/h |
| MockServer.MockReport | frontend/src/context/ServerContext.js:382-403 | only battery, status, speed and timestamp change; the charge is the old one less the drain, floored at 0; the status follows the charge bands; an empty drone stops |
| MockServer.MockUpdate | frontend/src/context/ServerContext.js:357-406 | after an update, altitude stays in 10-200 and charge is non-negative; an empty drone is "Разряжен" and stopped; below 10 it is "Критический заряд", from 10 up to 30 "Низкий заряд", otherwise the status is kept; identity and binding are kept |
| MockServer.MockBatteryNonIncreasing | frontend/src/context/ServerContext.js:384-387 | with the clock not going back, an update never raises the charge |
| MockServer.MockRunBatteryNonIncreasing | frontend/src/context/ServerContext.js:357-406 | over chronological updates the charge only goes down |
| MockServer.MockDrone.constructor | frontend/src/context/ServerContext.js:331-349 | the mock drone object holds exactly the given record |
| MockServer.MockDrone.Update | frontend/src/context/ServerContext.js:357-406 | the in-place update leaves the drone in the state `MockUpdate` gives |
| MockServer.MockDrone.Move | frontend/src/context/ServerContext.js:363-372 | turning and moving in place equal the move step |
| MockServer.MockDrone.Jitter | frontend/src/context/ServerContext.js:374-380 | the altitude and speed jitter in place equals the jitter step |
| MockServer.MockDrone.Report | frontend/src/context/ServerContext.js:382-403 | the battery, status and timestamp update in place equals the report step |
| MockServer.GenerateInitialDroneData | frontend/src/context/ServerContext.js:322-354 | five fresh, distinct mock drones keyed "1" to "5", each the initial record for its number |
| EventsList.Reduce | frontend/src/components/EventsList.js:56-72 | the initial-events message replaces the list, an emergency event is put in front, and any other message changes nothing |
| EventsList.EmergencyMessagesAccumulate | frontend/src/components/EventsList.js:63-70 | k emergency events grow the list by exactly k, newest first, with the earlier list after them |
| EventsList.CacheIsPrefixOfList | frontend/src/components/EventsList.js:66-69 | applied to the same saved list, the view's uncapped prepend and the mock's 20-entry prepend agree on the first 20 events, and the capped one drops the rest; the two writes in the order the source runs them are `InjectAsWritten` |
| EventsList.InjectAsWritten | frontend/src/context/ServerContext.js:297-312 | one injection as the source orders it: the view's handler writes its list, then the mock prepends the event to that; other keys are kept |
| EventsList.InjectionCachesEventTwice | frontend/src/context/ServerContext.js:300-309 | as written, the cache starts with the injected event twice and, below the cap, differs from the view's list |
| EventsList.CacheInjectedEventOnce | frontend/src/context/ServerContext.js:305-312 | the corrected mock write: a cache that already starts with the event is only capped; otherwise the write is unchanged |
| EventsList.InjectOnce | frontend/src/context/ServerContext.js:297-312 | with the corrected write, the cache is the first 20 events of the view's list, and a new event appears in it exactly once, in front |
| EventsList.EventsListView.constructor | frontend/src/components/EventsList.js:42-52 | on mount the list is the cached one, or empty when nothing is cached or it does not parse |
| EventsList.EventsListView.OnMessage | frontend/src/components/EventsList.js:56-72 | the list follows `Reduce`, and every list-changing message writes the new list to the cache, keeping list and cache in sync |
| EventsList.SeverityClass | frontend/src/components/EventsList.js:83-94 | the lower-cased severity "критическая", "высокая" or "средняя" gives its own class, and every other text gives "emergency-low" |
| EventsList.SeverityClassIgnoresCase | frontend/src/components/EventsList.js:83-94 | the class does not depend on letter case |
| EventsList.CatalogueSeverityClasses | frontend/src/components/EventsList.js:83-94 | the catalogue's four severities get the critical, high, medium and low classes |
| EventsList.SeverityColor | frontend/src/components/EventsList.js:30-35 | only the four catalogue severities, spelled exactly, get a colour: success, warning, error, error; everything else gets "default"; a coloured chip agrees with the row's class |
| EventsList.ColorIsCaseSensitive | frontend/src/components/EventsList.js:133-140 | a severity in capitals gets the critical class, but its chip falls back to the default colour |

## Left out

- `Math.random()`, `Date.now()`, `window.location.hostname`, `fetch`: these are explicit inputs of the model rather than effects.
- Date and time: one clock reading per call is used. The source reads the clock again inside its loops.
- Timestamps: `created_at` and `timestamp` are milliseconds, not their ISO-8601 text.
- Trigonometry: `Math.atan2`, `Math.sin` and `Math.cos` are not modelled.
  - The homeward step of a returning drone is an input.
  - So are the sine and cosine of a mock drone's new heading.
  - The snap-to-home test is the exact squared-distance comparison.
- Floating-point arithmetic: reals are exact.
- `ServerContext.ServerProvider`: React state updates are applied at once and in program order. Batching, re-rendering and stale closures are not modelled. In particular, the mock server's intervals read `isConnected` from the closure they were created in.
- `ServerContext.Connect`: constructing a WebSocket is assumed never to throw. An `onclose` from a socket that has already been replaced is not modelled: socket events apply to the current socket only. `onerror` logs and cancels the connection timer (ServerContext.js:494-497); that cancellation is not modelled, so `ConnectTimeout` may still close a socket that has raised an error. The end state is the same, because a socket that raises an error is then closed.
- `EventsList.EventsListView`: the source re-runs its effect whenever `socket` or `isConnected` changes (EventsList.js:42-81), re-reading the cache each time and attaching the message handler only while a socket is connected. The model reads the cache once, in the constructor, and handles every message. A re-read can pick up the mock server's 20-entry cache write (ServerContext.js:308) and so shorten the list the view holds.
- The auto-connect timer on mount (ServerContext.js:56-69) is not modelled. Neither is the persistence of `servers` and `currentServer` to storage (ServerContext.js:48, 81-90).
- The mock server's 5-second drone interval is not modelled: its 70 % per-drone selection and its JSON round trip of `drone_data` through storage (ServerContext.js:412-444). The update of one mock drone is modelled. So is the 5-minute event injection, as its cache update and as the message the list view receives.
- Storage is a map from keys to either a parsed event list or unparsable text. JSON encoding is not modelled. Text that parses to something other than a list, such as `null`, is not modelled: `loadEvents` returns such a value as it is. The `emergency_stats` and `drone_data` keys are written by the source but not read by the core, so they are not part of this model.
- `EventsList.Reduce`: a socket payload that does not parse as JSON is treated like a message of another type. In the source, parsing throws inside the handler.
- Rendering, routing, authentication, the backend servers and the map, settings and drone-management pages are not part of this model. That includes `ServerList.js`, apart from its local-address test.
- `generateSimulatedData` (DroneData.js:134-150): modelled through its fleet size (`Assignment.DroneCount`) and options (`Assignment.FleetOptions`). The React state it sets is not modelled.

## Findings

| source | as written | input that shows it | evidently intended | confidence | as-written member | corrected member |
|---|---|---|---|---|---|---|
| frontend/src/context/ServerContext.js:300-309 | `_simulateMessage` runs the list view's handler at once, and the handler writes `[newEvent, ...events]` to `emergency_events` (EventsList.js:66-69); the mock server then reads that back and prepends `newEvent` again | any injection while the list view is attached: with an empty cache and an empty list, the cache becomes `[e, e]` while the view shows `[e]` | the cache holds each injected event once and matches the first 20 events of the view's list | medium, not executed; assumes the state updater runs at once, as React does when no other update is pending | EventsList.InjectionCachesEventTwice | EventsList.InjectOnce |
