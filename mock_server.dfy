/**
 * The stand-in server that connectToServer sets up for a local server
 * (frontend/src/context/ServerContext.js): the initial events it sends and
 * stores, the events it injects later (and the 20-entry cache it keeps of
 * them), its test statistics, and its five mock drones with their own,
 * telemetry-like update rule, which differs from the fleet simulator's.
 *
 * `Math.random()` draws and `Date.now()` are explicit inputs; the sine and
 * cosine of a drone's heading are inputs too.
 */
module MockServer {
  import opened Common
  import opened Events

  /** The mock puts an evacuation event in front when its draw exceeds one half. */
  const MockEvacuationThreshold := 0.5
  /** At most this many events are kept in the cached list. */
  const CacheLimit := 20

  // ---------------------------------------------------------------------------
  // generateInitialEvents
  // ---------------------------------------------------------------------------

  /** Event i of the initial mock list: the catalogue sample with id `${i+1}`. */
  function MockEvent(now: nat, i: nat, d: SampleDraw): (e: Event)
    requires IsUnit(d.hours) && ValidCatalogueDraw(d.pick)
    ensures e.id == NatToString(i + 1)
    ensures e.severity in SeverityLevels && e.eventType in EventTypes && CatalogueLocation(e.location)
    ensures e.createdAt <= now && now - e.createdAt <= 23 * HourMs
  {
    SampledEvent(NatToString(i + 1), BatchCreatedAt(now, d.hours), d.pick)
  }

  /** The first `n` events of the initial mock list, in the order the loop pushes them. */
  function MockBatch(now: nat, samples: seq<SampleDraw>, n: nat): (events: seq<Event>)
    requires ValidSamples(samples) && n <= |samples|
    ensures |events| == n
  {
    if n == 0 then [] else MockBatch(now, samples, n - 1) + [MockEvent(now, n - 1, samples[n - 1])]
  }

  lemma {:induction false} MockBatchAt(now: nat, samples: seq<SampleDraw>, n: nat, i: nat)
    requires ValidSamples(samples) && n <= |samples|
    requires i < n
    ensures MockBatch(now, samples, n)[i] == MockEvent(now, i, samples[i])
    decreases n
  {
    if i < n - 1 {
      MockBatchAt(now, samples, n - 1, i);
    }
  }

  /**
   * `generateInitialEvents()`: 3 to 7 sampled events with ids "1", "2", ...,
   * an evacuation event in front when the draw exceeds 0.5, and the list
   * written to the cache.
   */
  method GenerateInitialEvents(now: nat, draws: BatchDraws, store: Store) returns (events: seq<Event>, stored: Store)
    requires ValidBatchDraws(draws)
    requires |draws.samples| == RandomIndex(draws.count, 5) + 3
    ensures events == (if draws.evacuation > MockEvacuationThreshold
                       then [EvacuationEvent(now, draws.evacCity, draws.evacStreet)] else [])
                      + MockBatch(now, draws.samples, |draws.samples|)
    ensures 3 <= |events| <= 8
    ensures stored == SaveEvents(store, events).0
  {
    var numEvents := RandomIndex(draws.count, 5) + 3;
    events := [];
    var i := 0;
    while i < numEvents
      invariant 0 <= i <= numEvents
      invariant events == MockBatch(now, draws.samples, i)
    {
      events := events + [MockEvent(now, i, draws.samples[i])];
      i := i + 1;
    }
    if draws.evacuation > MockEvacuationThreshold {
      events := [EvacuationEvent(now, draws.evacCity, draws.evacStreet)] + events;
    }
    stored := store[EventsKey := EventList(events)];
  }

  /** The sampled part of the initial mock list carries the ids "1", "2", ... in order. */
  lemma MockBatchIds(now: nat, samples: seq<SampleDraw>)
    requires ValidSamples(samples)
    ensures forall i :: 0 <= i < |samples| ==> MockBatch(now, samples, |samples|)[i].id == NatToString(i + 1)
  {
    forall i | 0 <= i < |samples|
      ensures MockBatch(now, samples, |samples|)[i].id == NatToString(i + 1)
    {
      MockBatchAt(now, samples, |samples|, i);
    }
  }

  predicate DistinctIds(events: seq<Event>) {
    forall i, j :: 0 <= i < j < |events| ==> events[i].id != events[j].id
  }

  /** Events numbered "1", "2", ... in order have distinct ids. */
  lemma NumberedIdsDistinct(events: seq<Event>)
    requires forall i :: 0 <= i < |events| ==> events[i].id == NatToString(i + 1)
    ensures DistinctIds(events)
  {
    forall i, j | 0 <= i < j < |events|
      ensures events[i].id != events[j].id
    {
      if events[i].id == events[j].id {
        NatToStringInjective(i + 1, j + 1);
      }
    }
  }

  /** The initial mock list has pairwise distinct ids, the evacuation event's included. */
  lemma MockIdsDistinct(now: nat, draws: BatchDraws, events: seq<Event>)
    requires ValidBatchDraws(draws)
    requires events == (if draws.evacuation > MockEvacuationThreshold
                        then [EvacuationEvent(now, draws.evacCity, draws.evacStreet)] else [])
                       + MockBatch(now, draws.samples, |draws.samples|)
    ensures DistinctIds(events)
  {
    var sampled := MockBatch(now, draws.samples, |draws.samples|);
    MockBatchIds(now, draws.samples);
    NumberedIdsDistinct(sampled);
    if draws.evacuation > MockEvacuationThreshold {
      var evacuation := EvacuationEvent(now, draws.evacCity, draws.evacStreet);
      assert evacuation.id[0] == 'e';
      forall j | 0 <= j < |sampled|
        ensures sampled[j].id != evacuation.id
      {
        assert IsDigit(sampled[j].id[0]);
      }
      assert events == [evacuation] + sampled;
    } else {
      assert events == sampled;
    }
  }

  // ---------------------------------------------------------------------------
  // generateNewEvent
  // ---------------------------------------------------------------------------

  /**
   * `generateNewEvent()`: one sampled event with id `new-<now>`; with chance 0.1
   * the title, description, severity and type become the evacuation template,
   * but, unlike generateRandomEvent, the id is kept.
   */
  method GenerateNewEvent(now: nat, pick: CatalogueDraw, evacuation: real) returns (e: Event)
    requires ValidCatalogueDraw(pick) && IsUnit(evacuation)
    ensures var sampled := SampledEvent("new-" + NatToString(now), now, pick);
      && e.id == sampled.id && e.location == sampled.location && e.createdAt == now && e.status == ActiveStatus
      && (evacuation >= SingleEvacuationChance ==> e == sampled)
    ensures evacuation < SingleEvacuationChance ==>
      && e.title == EvacuationTitle && e.description == EvacuationDescription
      && e.severity == CriticalSeverity && e.eventType == EvacuationType
    ensures StartsWith(e.id, "new-") && e.severity in SeverityLevels && CatalogueLocation(e.location)
  {
    e := SampledEvent("new-" + NatToString(now), now, pick);
    if evacuation < SingleEvacuationChance {
      e := e.(title := EvacuationTitle, description := EvacuationDescription,
              severity := CriticalSeverity, eventType := EvacuationType);
    }
    assert e.id[..4] == "new-";
  }

  // ---------------------------------------------------------------------------
  // The test statistics
  // ---------------------------------------------------------------------------

  /** The four draws of the test statistics, one per severity. */
  datatype StatsDraws = StatsDraws(low: real, medium: real, high: real, critical: real)

  /**
   * The statistics stored beside the initial events: two more in total than
   * active, and invented per-severity counts that ignore the events.
   */
  function TestStats(initialCount: nat, d: StatsDraws): (stats: Stats)
    requires IsUnit(d.low) && IsUnit(d.medium) && IsUnit(d.high) && IsUnit(d.critical)
    ensures stats.total == initialCount + 2 && stats.active == initialCount
    ensures stats.bySeverity.Keys == {"Низкая", "Средняя", "Высокая", "Критическая"}
    ensures 0 <= stats.bySeverity["Низкая"] <= 2
    ensures 1 <= stats.bySeverity["Средняя"] <= 3
    ensures 1 <= stats.bySeverity["Высокая"] <= 3
    ensures 0 <= stats.bySeverity["Критическая"] <= 1
  {
    Stats(initialCount + 2, initialCount,
          map["Низкая" := RandomIndex(d.low, 3),
              "Средняя" := RandomIndex(d.medium, 3) + 1,
              "Высокая" := RandomIndex(d.high, 3) + 1,
              "Критическая" := RandomIndex(d.critical, 2)])
  }

  // ---------------------------------------------------------------------------
  // The 20-entry cache of injected events
  // ---------------------------------------------------------------------------

  /** `[e, ...saved].slice(0, 20)`. */
  function PrependCapped(e: Event, saved: seq<Event>): (r: seq<Event>)
    ensures |r| == Min(|saved| + 1, CacheLimit)
    ensures r[0] == e
    ensures forall i :: 1 <= i < |r| ==> r[i] == saved[i - 1]
  {
    ([e] + saved)[..Min(|saved| + 1, CacheLimit)]
  }

  /** Two injections in a row put the newer event first and the older second, still capped. */
  lemma PrependCappedTwice(e1: Event, e2: Event, saved: seq<Event>)
    ensures PrependCapped(e2, PrependCapped(e1, saved)) == ([e2, e1] + saved)[..Min(|saved| + 2, CacheLimit)]
  {
    var r := PrependCapped(e2, PrependCapped(e1, saved));
    var expected := ([e2, e1] + saved)[..Min(|saved| + 2, CacheLimit)];
    assert |r| == |expected|;
    forall i | 0 <= i < |r|
      ensures r[i] == expected[i]
    {
      if i >= 2 {
        assert r[i] == saved[i - 2];
      }
    }
  }

  /**
   * The cached text cannot be read: it is there, not empty, and does not parse.
   * (An empty string is read as `'[]'`, like a missing entry.)
   */
  predicate Unreadable(store: Store) {
    EventsKey in store && store[EventsKey].Malformed? && store[EventsKey].text != ""
  }

  /**
   * The cache update after an injected event: the stored list (nothing stored,
   * or the empty string, reads as an empty list) gets the event in front, cut
   * to 20; stored text that does not parse makes the update throw, and the
   * handler leaves the store as is.
   */
  function CacheInjectedEvent(store: Store, e: Event): (r: Store)
    ensures Unreadable(store) ==> r == store
    ensures !Unreadable(store) ==> r == store[EventsKey := EventList(PrependCapped(e, LoadEvents(store)))]
  {
    if EventsKey !in store then store[EventsKey := EventList(PrependCapped(e, []))]
    else match store[EventsKey]
      case EventList(saved) => store[EventsKey := EventList(PrependCapped(e, saved))]
      case Malformed(text) => if text == "" then store[EventsKey := EventList(PrependCapped(e, []))] else store
  }

  /** The cache never holds more than 20 events, and the newest one comes first. */
  lemma CacheBounded(store: Store, e: Event)
    requires !Unreadable(store)
    ensures |LoadEvents(CacheInjectedEvent(store, e))| <= CacheLimit
    ensures LoadEvents(CacheInjectedEvent(store, e))[0] == e
    ensures |LoadEvents(CacheInjectedEvent(store, e))| == Min(|LoadEvents(store)| + 1, CacheLimit)
  {
    assert LoadEvents(CacheInjectedEvent(store, e)) == PrependCapped(e, LoadEvents(store));
  }

  // ---------------------------------------------------------------------------
  // The mock drones
  // ---------------------------------------------------------------------------

  const MockStatusActive := "Активен"
  const MockStatusCritical := "Критический заряд"
  const MockStatusLow := "Низкий заряд"
  const MockStatusDischarged := "Разряжен"
  const MinMockAltitude := 10.0
  const MaxMockAltitude := 200.0
  const MinMockSpeed := 5.0
  const MaxMockSpeed := 80.0
  /** `Math.PI * 2` as a double. */
  const TwoPi := 6.283185307179586
  const MinuteMs := 60000

  datatype MockDroneState = MockDroneState(
    droneId: string,
    latitude: real,
    longitude: real,
    altitude: real,
    speed: real,
    battery: real,                 // battery_level
    status: string,
    timestamp: int,                // milliseconds since the epoch
    relatedEvent: Option<string>,
    baseLatitude: real,            // _base.latitude
    baseLongitude: real,           // _base.longitude
    direction: real,               // _base.direction, in radians
    turnRate: real,                // _base.turnRate
    drainRate: real)               // _base.batteryDrainRate, percent per minute

  /** The ten draws that make up one initial mock drone. */
  datatype MockSpawnDraws = MockSpawnDraws(
    latitude: real, longitude: real, altitude: real, speed: real, battery: real,
    relatedGate: real, related: real, direction: real, turnRate: real, drainRate: real)

  predicate ValidMockSpawnDraws(d: MockSpawnDraws) {
    && IsUnit(d.latitude) && IsUnit(d.longitude) && IsUnit(d.altitude) && IsUnit(d.speed)
    && IsUnit(d.battery) && IsUnit(d.relatedGate) && IsUnit(d.related) && IsUnit(d.direction)
    && IsUnit(d.turnRate) && IsUnit(d.drainRate)
  }

  /**
   * Mock drone number i: near (55.75, 37.62), whole-number altitude 50-149 m,
   * speed 20-59 km/h and battery 70-99 %, 'Активен', and with even odds bound
   * to event "1", "2" or "3".
   */
  function InitialMockDrone(i: nat, d: MockSpawnDraws, now: int): (s: MockDroneState)
    requires ValidMockSpawnDraws(d)
    ensures s.droneId == NatToString(i) && s.status == MockStatusActive && s.timestamp == now
    ensures 55.75 <= s.latitude < 55.8 && 37.62 <= s.longitude < 37.67
    ensures s.baseLatitude == s.latitude && s.baseLongitude == s.longitude
    ensures 50.0 <= s.altitude <= 149.0 && s.altitude.Floor as real == s.altitude
    ensures 20.0 <= s.speed <= 59.0 && 70.0 <= s.battery <= 99.0
    ensures s.relatedEvent.Some? ==> s.relatedEvent.value in {"1", "2", "3"}
    ensures -0.05 <= s.turnRate < 0.05 && 0.01 <= s.drainRate < 0.03
  {
    var related := if d.relatedGate > 0.5 then Some(NatToString(RandomIndex(d.related, 3) + 1)) else None;
    var latitude := 55.75 + d.latitude * 0.05;
    var longitude := 37.62 + d.longitude * 0.05;
    MockDroneState(NatToString(i), latitude, longitude,
                   (RandomIndex(d.altitude, 100) + 50) as real,
                   (RandomIndex(d.speed, 40) + 20) as real,
                   (RandomIndex(d.battery, 30) + 70) as real,
                   MockStatusActive, now, related,
                   latitude, longitude, d.direction * TwoPi,
                   (d.turnRate - 0.5) * 0.1, d.drainRate * 0.02 + 0.01)
  }

  /** The draws of one update: the altitude and speed jitters and the sine and cosine of the new heading. */
  datatype MockUpdateDraws = MockUpdateDraws(altitude: real, speed: real, sinHeading: real, cosHeading: real)

  predicate ValidMockUpdateDraws(d: MockUpdateDraws) {
    IsUnit(d.altitude) && IsUnit(d.speed) && -1.0 <= d.sinHeading <= 1.0 && -1.0 <= d.cosHeading <= 1.0
  }

  function Clamp(lo: real, hi: real, x: real): (r: real)
    requires lo <= hi
    ensures lo <= r <= hi
    ensures lo <= x <= hi ==> r == x
  {
    MaxR(lo, MinR(hi, x))
  }

  /** Battery drained since the last report: rate × elapsed minutes × (1 + speed/100). */
  function Drain(s: MockDroneState, speed: real, now: int): real
  {
    s.drainRate * ((now - s.timestamp) as real / MinuteMs as real) * (1.0 + speed / 100.0)
  }

  /** The status after a report with the given battery level. */
  function ReportedStatus(status: string, battery: real): (r: string)
    ensures battery <= 0.0 ==> r == MockStatusDischarged
    ensures 0.0 < battery < 10.0 ==> r == MockStatusCritical
    ensures 10.0 <= battery < 30.0 ==> r == MockStatusLow
    ensures battery >= 30.0 ==> r == status
  {
    if battery <= 0.0 then MockStatusDischarged
    else if battery < 10.0 then MockStatusCritical
    else if battery < 30.0 then MockStatusLow
    else status
  }

  /** One heading component scaled by the distance, in degrees, covered at the given speed. */
  function Displacement(component: real, speed: real): (r: real)
    ensures -1.0 <= component <= 1.0 && speed >= 0.0 ==>
      -speed * 0.00001 / 3.6 <= r <= speed * 0.00001 / 3.6
  {
    var speedFactor := speed * 0.00001 / 3.6;
    SignedScale(component, speedFactor);
    component * speedFactor
  }

  /** Turn by the turn rate and move along the new heading by the current speed. */
  function MockMove(s: MockDroneState, d: MockUpdateDraws): (r: MockDroneState)
    // only the heading and the position change
    ensures r == s.(direction := r.direction, latitude := r.latitude, longitude := r.longitude)
    ensures r.direction == s.direction + s.turnRate
    // each coordinate moves by at most the distance covered at the current speed
    ensures ValidMockUpdateDraws(d) && s.speed >= 0.0 ==>
      && -s.speed * 0.00001 / 3.6 <= r.latitude - s.latitude <= s.speed * 0.00001 / 3.6
      && -s.speed * 0.00001 / 3.6 <= r.longitude - s.longitude <= s.speed * 0.00001 / 3.6
  {
    s.(direction := s.direction + s.turnRate,
       latitude := s.latitude + Displacement(d.sinHeading, s.speed),
       longitude := s.longitude + Displacement(d.cosHeading, s.speed))
  }

  /** Jitter altitude by up to ±2.5 m and speed by up to ±1.5 km/h, each clamped to its range. */
  function MockJitter(s: MockDroneState, d: MockUpdateDraws): (r: MockDroneState)
    // only altitude and speed change, and both end up within their ranges
    ensures r == s.(altitude := r.altitude, speed := r.speed)
    ensures MinMockAltitude <= r.altitude <= MaxMockAltitude && MinMockSpeed <= r.speed <= MaxMockSpeed
    // from within range, a jitter is at most 2.5 m and 1.5 km/h
    ensures ValidMockUpdateDraws(d) && MinMockAltitude <= s.altitude <= MaxMockAltitude ==>
      -2.5 <= r.altitude - s.altitude <= 2.5
    ensures ValidMockUpdateDraws(d) && MinMockSpeed <= s.speed <= MaxMockSpeed ==>
      -1.5 <= r.speed - s.speed <= 1.5
  {
    s.(altitude := Clamp(MinMockAltitude, MaxMockAltitude, s.altitude + (d.altitude - 0.5) * 5.0),
       speed := Clamp(MinMockSpeed, MaxMockSpeed, s.speed + (d.speed - 0.5) * 3.0))
  }

  /** Drain the battery for the time since the last report, derive the status, stop an empty drone, stamp the time. */
  function MockReport(s: MockDroneState, now: int): (r: MockDroneState)
    // only battery, status, speed and timestamp change
    ensures r == s.(battery := r.battery, status := r.status, speed := r.speed, timestamp := r.timestamp)
    ensures r.timestamp == now && r.battery >= 0.0
    ensures r.status == ReportedStatus(s.status, r.battery)
    ensures r.battery <= 0.0 ==> r.speed == 0.0
    ensures r.battery > 0.0 ==> r.speed == s.speed
    // a drone that keeps some charge loses exactly the drain for the elapsed time
    ensures r.battery > 0.0 ==> r.battery == s.battery - Drain(s, s.speed, now)
  {
    var battery := MaxR(0.0, s.battery - Drain(s, s.speed, now));
    s.(battery := battery,
       status := ReportedStatus(s.status, battery),
       speed := if battery <= 0.0 then 0.0 else s.speed,
       timestamp := now)
  }

  /**
   * `updateDroneData(drone)`: turn, move along the heading by the previous
   * speed, jitter and clamp altitude and speed, drain the battery for the
   * elapsed time at the new speed, derive the status, stop a drone whose
   * battery is empty, and stamp the time.
   */
  function MockUpdate(s: MockDroneState, d: MockUpdateDraws, now: int): (r: MockDroneState)
    ensures MinMockAltitude <= r.altitude <= MaxMockAltitude
    ensures r.battery >= 0.0
    ensures r.battery <= 0.0 ==> r.status == MockStatusDischarged && r.speed == 0.0
    ensures r.battery > 0.0 ==> MinMockSpeed <= r.speed <= MaxMockSpeed
    ensures 0.0 < r.battery < 10.0 ==> r.status == MockStatusCritical
    ensures 10.0 <= r.battery < 30.0 ==> r.status == MockStatusLow
    ensures r.battery >= 30.0 ==> r.status == s.status
    ensures r.timestamp == now && r.direction == s.direction + s.turnRate
    ensures r.droneId == s.droneId && r.relatedEvent == s.relatedEvent
  {
    MockReport(MockJitter(MockMove(s, d), d), now)
  }

  /** A factor in [-1, 1] scales a non-negative width to at most that width either way. */
  lemma SignedScale(x: real, w: real)
    ensures -1.0 <= x <= 1.0 && w >= 0.0 ==> -w <= x * w <= w
  {
    assert w - x * w == (1.0 - x) * w;
    assert w + x * w == (1.0 + x) * w;
  }

  lemma ProductNonNegative(a: real, b: real, c: real)
    requires a >= 0.0 && b >= 0.0 && c >= 0.0
    ensures a * b * c >= 0.0
  {
    assert a * b >= 0.0;
  }

  /** With the clock not going back and a non-negative drain rate, an update never raises the battery. */
  lemma MockBatteryNonIncreasing(s: MockDroneState, d: MockUpdateDraws, now: int)
    requires now >= s.timestamp && s.drainRate >= 0.0 && s.battery >= 0.0
    ensures MockUpdate(s, d, now).battery <= s.battery
  {
    var jittered := MockJitter(MockMove(s, d), d);
    ProductNonNegative(s.drainRate, (now - s.timestamp) as real / MinuteMs as real, 1.0 + jittered.speed / 100.0);
  }

  /** A series of updates at the given, non-decreasing times. */
  function MockRun(s: MockDroneState, steps: seq<(MockUpdateDraws, int)>): MockDroneState
    decreases |steps|
  {
    if steps == [] then s else MockRun(MockUpdate(s, steps[0].0, steps[0].1), steps[1..])
  }

  /** The update times never go back, starting from `start`. */
  predicate Chronological(start: int, steps: seq<(MockUpdateDraws, int)>) {
    && (|steps| > 0 ==> start <= steps[0].1)
    && forall i :: 0 < i < |steps| ==> steps[i - 1].1 <= steps[i].1
  }

  /** Over any chronological series of updates the battery only goes down. */
  lemma {:induction false} MockRunBatteryNonIncreasing(s: MockDroneState, steps: seq<(MockUpdateDraws, int)>)
    requires s.drainRate >= 0.0 && s.battery >= 0.0
    requires Chronological(s.timestamp, steps)
    ensures MockRun(s, steps).battery <= s.battery
    decreases |steps|
  {
    if steps != [] {
      var next := MockUpdate(s, steps[0].0, steps[0].1);
      MockBatteryNonIncreasing(s, steps[0].0, steps[0].1);
      assert Chronological(next.timestamp, steps[1..]) by {
        forall i | 0 < i < |steps[1..]|
          ensures steps[1..][i - 1].1 <= steps[1..][i].1
        {
          assert steps[1..][i - 1] == steps[i] && steps[1..][i] == steps[i + 1];
        }
      }
      MockRunBatteryNonIncreasing(next, steps[1..]);
    }
  }

  class MockDrone {
    var droneId: string
    var latitude: real
    var longitude: real
    var altitude: real
    var speed: real
    var battery: real
    var status: string
    var timestamp: int
    var relatedEvent: Option<string>
    var baseLatitude: real
    var baseLongitude: real
    var direction: real
    var turnRate: real
    var drainRate: real

    function State(): MockDroneState
      reads this
    {
      MockDroneState(droneId, latitude, longitude, altitude, speed, battery, status, timestamp,
                     relatedEvent, baseLatitude, baseLongitude, direction, turnRate, drainRate)
    }

    constructor (s: MockDroneState)
      ensures State() == s
    {
      droneId, latitude, longitude := s.droneId, s.latitude, s.longitude;
      altitude, speed, battery, status, timestamp := s.altitude, s.speed, s.battery, s.status, s.timestamp;
      relatedEvent, baseLatitude, baseLongitude := s.relatedEvent, s.baseLatitude, s.baseLongitude;
      direction, turnRate, drainRate := s.direction, s.turnRate, s.drainRate;
    }

    /** `updateDroneData(drone)`, in place. */
    method Update(d: MockUpdateDraws, now: int)
      modifies this
      ensures State() == MockUpdate(old(State()), d, now)
    {
      Move(d);
      Jitter(d);
      Report(now);
    }

    method Move(d: MockUpdateDraws)
      modifies this
      ensures State() == MockMove(old(State()), d)
    {
      direction := direction + turnRate;
      var speedFactor := speed * 0.00001 / 3.6;
      latitude := latitude + d.sinHeading * speedFactor;
      longitude := longitude + d.cosHeading * speedFactor;
    }

    method Jitter(d: MockUpdateDraws)
      modifies this
      ensures State() == MockJitter(old(State()), d)
    {
      altitude := altitude + (d.altitude - 0.5) * 5.0;
      altitude := MaxR(MinMockAltitude, MinR(MaxMockAltitude, altitude));
      speed := speed + (d.speed - 0.5) * 3.0;
      speed := MaxR(MinMockSpeed, MinR(MaxMockSpeed, speed));
    }

    method Report(now: int)
      modifies this
      ensures State() == MockReport(old(State()), now)
    {
      var drain := Drain(State(), speed, now);
      battery := MaxR(0.0, battery - drain);
      if battery < 10.0 {
        status := MockStatusCritical;
      } else if battery < 30.0 {
        status := MockStatusLow;
      }
      if battery <= 0.0 {
        status := MockStatusDischarged;
        speed := 0.0;
      }
      timestamp := now;
    }
  }

  /**
   * `generateInitialDroneData()`: five mock drones keyed "1" to "5", each built
   * from its own draws.
   */
  method GenerateInitialDroneData(draws: seq<MockSpawnDraws>, now: int) returns (keys: seq<string>, drones: seq<MockDrone>)
    requires |draws| == 5
    requires forall i :: 0 <= i < |draws| ==> ValidMockSpawnDraws(draws[i])
    ensures |keys| == |drones| == 5
    ensures forall i :: 0 <= i < 5 ==> keys[i] == NatToString(i + 1) && keys[i] == drones[i].droneId
    ensures forall i :: 0 <= i < 5 ==> fresh(drones[i]) && drones[i].State() == InitialMockDrone(i + 1, draws[i], now)
    ensures forall i, j :: 0 <= i < j < 5 ==> drones[i] != drones[j]
  {
    keys, drones := [], [];
    for i := 1 to 6
      invariant |keys| == |drones| == i - 1
      invariant forall j :: 0 <= j < i - 1 ==> keys[j] == NatToString(j + 1)
      invariant forall j :: 0 <= j < i - 1 ==> fresh(drones[j]) && drones[j].State() == InitialMockDrone(j + 1, draws[j], now)
      invariant forall j, k :: 0 <= j < k < i - 1 ==> drones[j] != drones[k]
    {
      var drone := new MockDrone(InitialMockDrone(i, draws[i - 1], now));
      keys := keys + [NatToString(i)];
      drones := drones + [drone];
    }
  }
}
