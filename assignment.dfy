/**
 * Binding simulated drones to emergency events (frontend/src/components/DroneData.js):
 * `assignDronesToEvents` pairs the i-th drone, in id order, with the i-th event
 * after clearing every previous binding, and `generateSimulatedData` sizes the
 * simulated fleet from the number of known events.
 *
 * The drone objects are shared with the caller's fleet (the function copies the
 * keyed object shallowly), so the binding is written into them in place.
 */
module Assignment {
  import opened Common
  import opened Events
  import opened Simulation

  const UnknownLocation := "Неизвестная локация"
  const UnknownEvent := "Неизвестное событие"

  /**
   * `event.id || Math.random().toString(36).substring(2, 11)`: the event's id,
   * or, for an event without one, the random placeholder drawn for it.
   */
  function EventIdOrPlaceholder(e: Event, placeholder: string): string {
    if e.id != "" then e.id else placeholder
  }

  /** `eventsData.find(e => (e.id || '') === eventId)`: the first event carrying `id`. */
  function FindEvent(events: seq<Event>, id: string): (r: Option<Event>)
    ensures r.Some? <==> exists k :: 0 <= k < |events| && events[k].id == id
    ensures r.Some? ==> r.value in events && r.value.id == id
  {
    if events == [] then None
    else if events[0].id == id then Some(events[0])
    else FindEvent(events[1..], id)
  }

  /** The lookup returns the first event carrying the id, not a later one. */
  lemma {:induction false} FindEventFirst(events: seq<Event>, id: string, k: nat)
    requires k < |events| && events[k].id == id
    requires forall j :: 0 <= j < k ==> events[j].id != id
    ensures FindEvent(events, id) == Some(events[k])
  {
    if k > 0 {
      FindEventFirst(events[1..], id, k - 1);
    }
  }

  /** `related_event_info`: the event's location and type, each with a fallback for a missing value. */
  function Info(e: Event): (info: EventInfo)
    ensures info.location == if e.location != "" then e.location else UnknownLocation
    ensures e.eventType != "" ==> info.eventType == e.eventType
    ensures e.eventType == "" && e.title != "" ==> info.eventType == e.title
    ensures e.eventType == "" && e.title == "" ==> info.eventType == UnknownEvent
    ensures info.location != "" && info.eventType != ""
  {
    EventInfo(if e.location != "" then e.location else UnknownLocation,
              if e.eventType != "" then e.eventType else if e.title != "" then e.title else UnknownEvent)
  }

  /** A drone with both binding fields reset to null. */
  function Unbound(s: DroneState): DroneState {
    s.(relatedEvent := None, relatedEventInfo := None)
  }

  /** The body of the pairing loop for drone i: bound to id i when an event carries that id. */
  function Paired(s: DroneState, i: nat, events: seq<Event>, placeholders: seq<string>): DroneState
    requires i < |events| == |placeholders|
  {
    var eventId := EventIdOrPlaceholder(events[i], placeholders[i]);
    match FindEvent(events, eventId)
    case Some(e) => s.(relatedEvent := Some(eventId), relatedEventInfo := Some(Info(e)))
    case None => s
  }

  /** Every drone after the reset loop. */
  function ClearAll(states: seq<DroneState>): (r: seq<DroneState>)
    ensures |r| == |states|
  {
    seq(|states|, i requires 0 <= i < |states| => Unbound(states[i]))
  }

  /** Every drone after the pairing loop: the first min(#drones, #events) visited. */
  function PairAll(states: seq<DroneState>, events: seq<Event>, placeholders: seq<string>): (r: seq<DroneState>)
    requires |events| == |placeholders|
    ensures |r| == |states|
  {
    seq(|states|, i requires 0 <= i < |states| =>
          if i < |events| then Paired(states[i], i, events, placeholders) else states[i])
  }

  /**
   * The drone records after `assignDronesToEvents`: untouched when there is no
   * event or no drone; otherwise all bindings reset and then the first
   * min(#drones, #events) drones paired by position. Nothing but the two
   * binding fields differs.
   */
  function Assignment(states: seq<DroneState>, events: seq<Event>, placeholders: seq<string>): (r: seq<DroneState>)
    requires |events| == |placeholders|
    ensures |r| == |states|
    ensures |events| == 0 || |states| == 0 ==> r == states
    ensures forall i :: 0 <= i < |r| ==>
      r[i] == states[i].(relatedEvent := r[i].relatedEvent, relatedEventInfo := r[i].relatedEventInfo)
  {
    if |events| == 0 || |states| == 0 then states
    else PairAll(ClearAll(states), events, placeholders)
  }

  /** `assignDronesToEvents(dronesData, eventsData)`, writing into the shared drone objects. */
  method AssignDronesToEvents(fleet: Fleet, events: seq<Event>, placeholders: seq<string>) returns (updated: Fleet)
    requires ValidFleet(fleet)
    requires |placeholders| == |events|
    modifies fleet.drones
    ensures updated == fleet
    ensures States(updated.drones) == Assignment(old(States(fleet.drones)), events, placeholders)
  {
    updated := fleet;
    var droneIds := updated.keys;
    var availableEventIds: seq<string> := [];
    if |events| > 0 {
      availableEventIds := CollectEventIds(events, placeholders);
    }
    if |availableEventIds| == 0 || |droneIds| == 0 {
      return;
    }
    var dronesNeeded := Min(|droneIds|, |availableEventIds|);
    ClearBindings(updated.drones);
    PairDrones(updated.drones, events, placeholders, availableEventIds, dronesNeeded);
  }

  /** The `forEach` that pushes one id (or placeholder) per event. */
  method CollectEventIds(events: seq<Event>, placeholders: seq<string>) returns (availableEventIds: seq<string>)
    requires |placeholders| == |events|
    ensures |availableEventIds| == |events|
    ensures forall j :: 0 <= j < |events| ==> availableEventIds[j] == EventIdOrPlaceholder(events[j], placeholders[j])
  {
    availableEventIds := [];
    for i := 0 to |events|
      invariant |availableEventIds| == i
      invariant forall j :: 0 <= j < i ==> availableEventIds[j] == EventIdOrPlaceholder(events[j], placeholders[j])
    {
      availableEventIds := availableEventIds + [EventIdOrPlaceholder(events[i], placeholders[i])];
    }
  }

  /** The `forEach` that resets `related_event` and `related_event_info` on every drone. */
  method ClearBindings(drones: seq<Drone>)
    requires forall i, j :: 0 <= i < |drones| && 0 <= j < |drones| && i != j ==> drones[i] != drones[j]
    modifies drones
    ensures States(drones) == ClearAll(old(States(drones)))
  {
    ghost var before := States(drones);
    for i := 0 to |drones|
      invariant forall j :: 0 <= j < i ==> drones[j].State() == Unbound(before[j])
      invariant forall j :: i <= j < |drones| ==> drones[j].State() == before[j]
    {
      drones[i].relatedEvent := None;
      drones[i].relatedEventInfo := None;
    }
    assert forall j :: 0 <= j < |drones| ==> States(drones)[j] == ClearAll(before)[j];
  }

  /** The `for` loop that binds drone i to id i when an event carries that id. */
  method PairDrones(drones: seq<Drone>, events: seq<Event>, placeholders: seq<string>,
                    availableEventIds: seq<string>, dronesNeeded: nat)
    requires forall i, j :: 0 <= i < |drones| && 0 <= j < |drones| && i != j ==> drones[i] != drones[j]
    requires |placeholders| == |events| == |availableEventIds|
    requires forall j :: 0 <= j < |events| ==> availableEventIds[j] == EventIdOrPlaceholder(events[j], placeholders[j])
    requires dronesNeeded == Min(|drones|, |events|)
    modifies drones
    ensures States(drones) == PairAll(old(States(drones)), events, placeholders)
  {
    ghost var before := States(drones);
    ghost var target := PairAll(before, events, placeholders);
    for i := 0 to dronesNeeded
      invariant forall j :: 0 <= j < i ==> drones[j].State() == target[j]
      invariant forall j :: i <= j < |drones| ==> drones[j].State() == before[j]
    {
      assert target[i] == Paired(before[i], i, events, placeholders);
      PairDrone(drones[i], i, events, placeholders, availableEventIds[i]);
    }
    forall j | dronesNeeded <= j < |drones|
      ensures drones[j].State() == target[j]
    {
      assert target[j] == before[j];
    }
    StatesAre(drones, target);
  }

  /** The records of the drones, read off one by one. */
  lemma StatesAre(drones: seq<Drone>, states: seq<DroneState>)
    requires |states| == |drones|
    requires forall j :: 0 <= j < |drones| ==> drones[j].State() == states[j]
    ensures States(drones) == states
  {
  }

  /** One turn of the pairing loop: bind the drone when an event carries the id at its position. */
  method PairDrone(drone: Drone, i: nat, events: seq<Event>, placeholders: seq<string>, eventId: string)
    requires i < |events| == |placeholders|
    requires eventId == EventIdOrPlaceholder(events[i], placeholders[i])
    modifies drone
    ensures drone.State() == Paired(old(drone.State()), i, events, placeholders)
  {
    var event := FindEvent(events, eventId);
    if event.Some? {
      drone.Bind(eventId, Info(event.value));
    }
  }

  // ---------------------------------------------------------------------------
  // Properties of the assignment
  // ---------------------------------------------------------------------------

  /** Ids present and pairwise distinct: the lookup finds the event at the position of its id. */
  lemma FindDistinct(events: seq<Event>, i: nat)
    requires i < |events|
    requires forall j, k :: 0 <= j < k < |events| ==> events[j].id != events[k].id
    ensures FindEvent(events, events[i].id) == Some(events[i])
  {
    FindEventFirst(events, events[i].id, i);
  }

  /**
   * Whatever the ids: every drone past the number of events is left unbound,
   * and drone i is bound to event i's id, with the info of the first event
   * carrying that id, whenever event i has an id. With pairwise distinct ids
   * that first event is event i itself.
   */
  lemma PairsInOrder(states: seq<DroneState>, events: seq<Event>, placeholders: seq<string>)
    requires |events| == |placeholders| && |events| > 0
    ensures var r := Assignment(states, events, placeholders);
      forall i :: 0 <= i < |r| && i >= |events| ==> r[i].relatedEvent == None && r[i].relatedEventInfo == None
    ensures var r := Assignment(states, events, placeholders);
      forall i :: 0 <= i < |r| && i < |events| && events[i].id != "" ==>
        && FindEvent(events, events[i].id).Some?
        && r[i].relatedEvent == Some(events[i].id)
        && r[i].relatedEventInfo == Some(Info(FindEvent(events, events[i].id).value))
    ensures (forall j, k :: 0 <= j < k < |events| ==> events[j].id != events[k].id) ==>
      var r := Assignment(states, events, placeholders);
      forall i :: 0 <= i < |r| && i < |events| && events[i].id != "" ==> r[i].relatedEventInfo == Some(Info(events[i]))
  {
    var r := Assignment(states, events, placeholders);
    forall i | 0 <= i < |r| && i < |events| && events[i].id != ""
      ensures FindEvent(events, events[i].id).Some?
    {
      assert events[i].id == events[i].id;
    }
    if forall j, k :: 0 <= j < k < |events| ==> events[j].id != events[k].id {
      forall i | 0 <= i < |r| && i < |events|
        ensures FindEvent(events, events[i].id) == Some(events[i])
      {
        FindDistinct(events, i);
      }
    }
  }

  /** Each id position is used once, so distinct ids give drones distinct bindings. */
  lemma BoundIdsDistinct(states: seq<DroneState>, events: seq<Event>, placeholders: seq<string>)
    requires |events| == |placeholders|
    requires forall j, k :: 0 <= j < k < |events| ==>
      EventIdOrPlaceholder(events[j], placeholders[j]) != EventIdOrPlaceholder(events[k], placeholders[k])
    // with no events the records are returned as they are, so they must start unbound
    requires |events| > 0 || forall j :: 0 <= j < |states| ==> states[j].relatedEvent == None
    ensures var r := Assignment(states, events, placeholders);
      forall i, j :: 0 <= i < j < |r| && r[i].relatedEvent.Some? ==> r[i].relatedEvent != r[j].relatedEvent
  {
    var r := Assignment(states, events, placeholders);
    forall i | 0 <= i < |r| && r[i].relatedEvent.Some?
      ensures i < |events| && r[i].relatedEvent == Some(EventIdOrPlaceholder(events[i], placeholders[i]))
    {
    }
  }

  /** An event without an id whose placeholder matches no event's id leaves its drone unbound. */
  lemma PlaceholderNeverBinds(states: seq<DroneState>, events: seq<Event>, placeholders: seq<string>, i: nat)
    requires |events| == |placeholders|
    requires i < |states| && i < |events|
    requires events[i].id == ""
    requires forall e :: e in events ==> e.id != placeholders[i]
    ensures Assignment(states, events, placeholders)[i] == Unbound(states[i])
  {
    assert FindEvent(events, placeholders[i]) == None;
  }

  /** With at least as many drones as events, every event id is bound to some drone. */
  lemma EveryEventCovered(states: seq<DroneState>, events: seq<Event>, placeholders: seq<string>)
    requires |events| == |placeholders| && 0 < |events| <= |states|
    requires forall j :: 0 <= j < |events| ==> events[j].id != ""
    ensures var r := Assignment(states, events, placeholders);
      forall k :: 0 <= k < |events| ==> exists i :: 0 <= i < |r| && r[i].relatedEvent == Some(events[k].id)
  {
    var r := Assignment(states, events, placeholders);
    forall k | 0 <= k < |events|
      ensures exists i :: 0 <= i < |r| && r[i].relatedEvent == Some(events[k].id)
    {
      assert FindEvent(events, events[k].id).Some?;
      assert r[k].relatedEvent == Some(events[k].id);
    }
  }

  // ---------------------------------------------------------------------------
  // generateSimulatedData: the fleet size
  // ---------------------------------------------------------------------------

  /** `Math.max(3, Math.min(eventCount || 5, 10))`. */
  function DroneCount(eventCount: nat): (n: nat)
    ensures 3 <= n <= 10
    ensures eventCount == 0 ==> n == 5
    ensures 3 <= eventCount <= 10 ==> n == eventCount
    ensures 0 < eventCount < 3 ==> n == 3
    ensures eventCount > 10 ==> n == 10
  {
    Max(3, Min(if eventCount == 0 then 5 else eventCount, 10))
  }

  /** The simulator options `generateSimulatedData` passes (charge drawn from 20 to 99). */
  const FleetOptions := Options(55.751244, 37.618423, 0.05, 5, 120, 0, 90, 20, 100)
}
