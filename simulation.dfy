/**
 * The development-mode drone fleet simulator (frontend/src/utils/simulationUtils.js).
 *
 * `simulateDroneData` creates a fleet keyed "drone-1".."drone-count";
 * `updateSimulatedDrones` advances it under three cadence gates (position every
 * 2 s, battery and status every 2 min) through a five-status state machine in
 * which "отключены" (disabled) is terminal. Each drone is an object that the
 * update mutates in place, so a drone is a class; its fields are collected in the
 * value `DroneState`, on which one tick is specified by `TickDrone` and the
 * invariants are proved.
 *
 * Every `Math.random()` is an explicit draw in [0, 1), `Date.now()` an explicit
 * number of milliseconds, and the homeward step `cos(direction) * 0.001`,
 * `sin(direction) * 0.001` an opaque pair of reals.
 */
module Simulation {
  import opened Common

  /** DRONE_STATUSES, in the source's order. */
  datatype Status = Active | Waiting | Returning | Mission | Disabled {
    /** The status text the dashboard stores and displays. */
    function Label(): string {
      match this
      case Active => "активен"
      case Waiting => "ожидает"
      case Returning => "возвращаются на базу"
      case Mission => "миссия"
      case Disabled => "отключены"
    }
  }

  const DroneStatuses: seq<Status> := [Active, Waiting, Returning, Mission, Disabled]

  /** The five labels are distinct, so comparing labels is comparing statuses. */
  lemma LabelInjective(a: Status, b: Status)
    requires a.Label() == b.Label()
    ensures a == b
  {
  }

  // UPDATE_INTERVALS, in milliseconds
  const PositionInterval := 2000
  const BatteryInterval := 120000
  const StatusInterval := 120000

  const MinBatteryLevel := 5

  // DRONE_LIMITS
  const MinAltitude := 5
  const MaxAltitude := 120
  const MaxAltChange := 5
  const MinSpeed := 0
  const MaxSpeed := 90
  const MaxSpeedChange := 3

  /** A returning drone closer than this (in degrees) to home is snapped onto it. */
  const HomeRadius := 0.0005
  /** Chance per status tick that an eligible drone changes status. */
  const StatusChangeChance := 0.2

  // ---------------------------------------------------------------------------
  // getRandomNumber, generateCoordinates
  // ---------------------------------------------------------------------------

  /** `getRandomNumber(min, max)`: `u * (max - min) + min`. */
  function RandomNumber(u: real, min: real, max: real): (r: real)
    requires IsUnit(u)
    ensures min <= max ==> min <= r <= max
    ensures min < max ==> r < max
  {
    var width := max - min;
    ScaleBounds(u, width);
    u * width + min
  }

  /** A unit draw scales a non-negative width to at most that width, strictly below it when positive. */
  lemma ScaleBounds(u: real, w: real)
    requires IsUnit(u)
    ensures w >= 0.0 ==> 0.0 <= u * w <= w
    ensures w > 0.0 ==> u * w < w
  {
    assert w - u * w == (1.0 - u) * w;
    if w > 0.0 {
      assert (1.0 - u) * w > 0.0;
    }
  }

  /** `getRandomNumber(min, max, true)`: the floor of the real draw, for integer bounds. */
  function RandomInt(u: real, min: int, max: int): (n: int)
    requires IsUnit(u)
    ensures min < max ==> min <= n < max
    ensures min == max ==> n == min
  {
    RandomNumber(u, min as real, max as real).Floor
  }

  datatype Coordinates = Coordinates(latitude: real, longitude: real)

  /** `generateCoordinates`: a point within `maxDistance` degrees of the base point on each axis. */
  function GenerateCoordinates(baseLat: real, baseLon: real, maxDistance: real, uLat: real, uLon: real): (c: Coordinates)
    requires IsUnit(uLat) && IsUnit(uLon)
    ensures maxDistance >= 0.0 ==>
      && baseLat - maxDistance <= c.latitude <= baseLat + maxDistance
      && baseLon - maxDistance <= c.longitude <= baseLon + maxDistance
  {
    Coordinates(baseLat + RandomNumber(uLat, -maxDistance, maxDistance),
                baseLon + RandomNumber(uLon, -maxDistance, maxDistance))
  }

  // ---------------------------------------------------------------------------
  // The drone record
  // ---------------------------------------------------------------------------

  /** `related_event_info`: where the bound event happens and what it is. */
  datatype EventInfo = EventInfo(location: string, eventType: string)

  /** The fields of one simulated drone, `_simulation.direction` and `_simulation.home` included. */
  datatype DroneState = DroneState(
    name: string,
    status: Status,
    latitude: real,
    longitude: real,
    altitude: int,
    speed: int,
    battery: int,                          // battery_level
    relatedEvent: Option<string>,          // related_event, None for null
    relatedEventInfo: Option<EventInfo>,   // related_event_info, None for null
    dirLat: real,
    dirLon: real,
    homeLat: real,
    homeLon: real)

  /** Speed, altitude and battery within DRONE_LIMITS and a non-negative charge. */
  predicate Sane(s: DroneState) {
    MinSpeed <= s.speed <= MaxSpeed && MinAltitude <= s.altitude <= MaxAltitude && s.battery >= 0
  }

  // ---------------------------------------------------------------------------
  // One tick of updateSimulatedDrones for one drone
  // ---------------------------------------------------------------------------

  /** Which of the three cadences fired in this call. */
  datatype Gates = Gates(position: bool, battery: bool, status: bool)

  /**
   * The draws one drone may consume in one tick, in the order the source makes
   * them, plus the homeward step taken by a returning drone.
   */
  datatype TickDraws = TickDraws(
    homeStepLat: real, homeStepLon: real,
    speedChange: real, targetSpeed: real,
    dirLat: real, dirLon: real, speedCoin: real, altChange: real, altCoin: real,
    statusGate: real, statusPick: real)

  predicate ValidTickDraws(d: TickDraws) {
    && IsUnit(d.speedChange) && IsUnit(d.targetSpeed) && IsUnit(d.dirLat) && IsUnit(d.dirLon)
    && IsUnit(d.speedCoin) && IsUnit(d.altChange) && IsUnit(d.altCoin)
    && IsUnit(d.statusGate) && IsUnit(d.statusPick)
  }

  /** Battery tick for a drone that keeps some charge: one unit less, and home-bound once at or below 5. */
  function Drain(s: DroneState): DroneState {
    var battery := Max(0, s.battery - 1);
    s.(battery := battery, status := if battery <= MinBatteryLevel && s.status != Disabled then Returning else s.status)
  }

  /** `Math.sqrt(dx * dx + dy * dy) < 0.0005`, stated without the square root. */
  predicate NearHome(s: DroneState) {
    var dx, dy := s.homeLat - s.latitude, s.homeLon - s.longitude;
    dx * dx + dy * dy < HomeRadius * HomeRadius
  }

  /** A returning drone's speed drifts towards a target in [40, 59] by 0 to 2 km/h, clamped to the limits. */
  function ReturnSpeed(speed: int, d: TickDraws): int
    requires ValidTickDraws(d)
  {
    var speedChange := RandomInt(d.speedChange, 0, MaxSpeedChange);
    var targetSpeed := RandomInt(d.targetSpeed, 40, 60);
    Max(MinSpeed, Min(MaxSpeed, if speed > targetSpeed then speed - speedChange else speed + speedChange))
  }

  /** A patrolling drone's speed moves up or down by 0 to 2 km/h within the limits. */
  function PatrolSpeed(speed: int, d: TickDraws): int
    requires ValidTickDraws(d)
  {
    var speedChange := RandomInt(d.speedChange, 0, MaxSpeedChange);
    if d.speedCoin > 0.5 then Min(MaxSpeed, speed + speedChange) else Max(MinSpeed, speed - speedChange)
  }

  /** A patrolling drone's altitude moves up or down by 0 to 4 m within the limits. */
  function PatrolAltitude(altitude: int, d: TickDraws): int
    requires ValidTickDraws(d)
  {
    var altChange := RandomInt(d.altChange, 0, MaxAltChange);
    if d.altCoin > 0.5 then Min(MaxAltitude, altitude + altChange) else Max(MinAltitude, altitude - altChange)
  }

  /** A home-bound drone is parked once within reach of home, otherwise it takes one step towards it. */
  function ReturnStep(s: DroneState, d: TickDraws): DroneState
    requires ValidTickDraws(d)
  {
    if NearHome(s) then
      s.(latitude := s.homeLat, longitude := s.homeLon, speed := 0,
         status := if s.battery <= MinBatteryLevel then Disabled else Waiting)
    else
      s.(latitude := s.latitude + d.homeStepLat, longitude := s.longitude + d.homeStepLon,
         speed := ReturnSpeed(s.speed, d))
  }

  /** A patrolling drone draws a new heading, moves along it, and changes speed and altitude a little. */
  function PatrolStep(s: DroneState, d: TickDraws): DroneState
    requires ValidTickDraws(d)
  {
    var dirLat := RandomNumber(d.dirLat, -0.001, 0.001);
    var dirLon := RandomNumber(d.dirLon, -0.001, 0.001);
    s.(dirLat := dirLat, dirLon := dirLon,
       latitude := s.latitude + dirLat, longitude := s.longitude + dirLon,
       speed := PatrolSpeed(s.speed, d), altitude := PatrolAltitude(s.altitude, d))
  }

  /** Position tick: home-bound, patrolling and waiting drones move differently. */
  function Move(s: DroneState, d: TickDraws): DroneState
    requires ValidTickDraws(d)
  {
    if s.status == Returning then ReturnStep(s, d)
    else if s.status != Waiting && s.status != Disabled then PatrolStep(s, d)
    else if s.status == Waiting then s.(speed := 0)
    else s
  }

  /** `DRONE_STATUSES.filter(...)`: the statuses a drone may switch to, in the source's order. */
  function AvailableStatuses(current: Status): (r: seq<Status>)
    ensures forall st :: st in r <==> st != current && st != Disabled && st != Returning
  {
    Keep(DroneStatuses, current)
  }

  function Keep(statuses: seq<Status>, current: Status): (r: seq<Status>)
    ensures forall st :: st in r <==> st in statuses && st != current && st != Disabled && st != Returning
  {
    if statuses == [] then []
    else
      var rest := Keep(statuses[1..], current);
      var st := statuses[0];
      assert forall x :: x in statuses <==> x == st || x in statuses[1..];
      if st != current && st != Disabled && st != Returning then [st] + rest else rest
  }

  /** An eligible drone always has two statuses to choose from. */
  lemma AvailableStatusesCount(current: Status)
    requires current != Disabled && current != Returning
    ensures |AvailableStatuses(current)| == 2
  {
  }

  /** Status tick: an idle or busy drone with charge above 5 switches with chance 0.2. */
  function ChangeStatus(s: DroneState, d: TickDraws): DroneState
    requires ValidTickDraws(d)
  {
    if s.status != Returning && s.status != Disabled && s.battery > MinBatteryLevel && d.statusGate < StatusChangeChance then
      var available := AvailableStatuses(s.status);
      AvailableStatusesCount(s.status);
      s.(status := available[RandomIndex(d.statusPick, |available|)])
    else
      s
  }

  /** The body of the `forEach` callback of `updateSimulatedDrones` for one drone. */
  function TickDrone(s: DroneState, g: Gates, d: TickDraws): (t: DroneState)
    requires ValidTickDraws(d)
    // a tick never touches the drone's name, its event binding or its home
    ensures t.name == s.name && t.relatedEvent == s.relatedEvent && t.relatedEventInfo == s.relatedEventInfo
    ensures t.homeLat == s.homeLat && t.homeLon == s.homeLon
    // only the position cadence moves the drone
    ensures !g.position ==> t.latitude == s.latitude && t.longitude == s.longitude && t.altitude == s.altitude
  {
    if s.status == Disabled then s
    else if g.battery && Max(0, s.battery - 1) == 0 then
      s.(battery := 0, status := Disabled, speed := 0)
    else
      var s1 := if g.battery then Drain(s) else s;
      var s2 := if g.position then Move(s1, d) else s1;
      if g.status then ChangeStatus(s2, d) else s2
  }

  // ---------------------------------------------------------------------------
  // Properties of one tick
  // ---------------------------------------------------------------------------

  /** A disabled drone is skipped: nothing about it changes. */
  lemma DisabledIsTerminal(s: DroneState, g: Gates, d: TickDraws)
    requires ValidTickDraws(d)
    requires s.status == Disabled
    ensures TickDrone(s, g, d) == s
  {
  }

  /**
   * Only the battery cadence writes the charge: it drops by exactly one, never
   * below zero, and otherwise it is kept.
   */
  lemma TickBattery(s: DroneState, g: Gates, d: TickDraws)
    requires ValidTickDraws(d)
    ensures var t := TickDrone(s, g, d);
      t.battery == if g.battery && s.status != Disabled then Max(0, s.battery - 1) else s.battery
    ensures s.battery >= 0 ==> 0 <= TickDrone(s, g, d).battery <= s.battery
  {
    var t := TickDrone(s, g, d);
    if s.status != Disabled && !(g.battery && Max(0, s.battery - 1) == 0) {
      var s1 := if g.battery then Drain(s) else s;
      var s2 := if g.position then Move(s1, d) else s1;
      assert s2.battery == s1.battery;
    }
  }

  /** A battery tick that empties the charge disables the drone, stops it and skips the rest of the tick. */
  lemma EmptyBatteryDisables(s: DroneState, g: Gates, d: TickDraws)
    requires ValidTickDraws(d)
    requires g.battery && s.status != Disabled && s.battery <= 1
    ensures TickDrone(s, g, d) == s.(battery := 0, status := Disabled, speed := 0)
  {
  }

  /** After a battery tick a drone at or below 5 is heading home, or already parked there and disabled. */
  lemma LowBatteryGoesHome(s: DroneState, g: Gates, d: TickDraws)
    requires ValidTickDraws(d)
    requires g.battery && s.status != Disabled
    requires TickDrone(s, g, d).battery <= MinBatteryLevel
    ensures TickDrone(s, g, d).status == Returning || TickDrone(s, g, d).status == Disabled
  {
    TickBattery(s, g, d);
    if Max(0, s.battery - 1) != 0 {
      var s1 := Drain(s);
      assert s1.status == Returning;
      var s2 := if g.position then Move(s1, d) else s1;
      assert s2.status == Returning || s2.status == Disabled;
    }
  }

  /**
   * A returning drone that the position cadence finds within 0.0005 of home is
   * parked there with speed 0, and disabled if its charge is at most 5.
   */
  lemma ReturningSnapsHome(s: DroneState, g: Gates, d: TickDraws)
    requires ValidTickDraws(d)
    requires s.status == Returning && !g.battery && g.position && NearHome(s)
    ensures var t := TickDrone(s, g, d);
      && t.latitude == s.homeLat && t.longitude == s.homeLon && t.speed == 0
      && (s.battery <= MinBatteryLevel ==> t.status == Disabled)
      && (s.battery > MinBatteryLevel ==> t.status != Disabled && t.status != Returning)
  {
    var s2 := Move(s, d);
    if s.battery > MinBatteryLevel {
      assert s2.status == Waiting;
    }
  }

  /** Limits are kept: a sane drone is still sane after any tick. */
  lemma TickPreservesSane(s: DroneState, g: Gates, d: TickDraws)
    requires ValidTickDraws(d)
    requires Sane(s)
    ensures Sane(TickDrone(s, g, d))
  {
    if s.status != Disabled && !(g.battery && Max(0, s.battery - 1) == 0) {
      var s1 := if g.battery then Drain(s) else s;
      assert Sane(s1);
      var s2 := if g.position then Move(s1, d) else s1;
      assert Sane(s2);
    }
  }

  /**
   * For a sane drone one tick moves the altitude by at most 4 m, and the speed
   * by at most 2 km/h unless the drone is stopped.
   */
  lemma TickIsGradual(s: DroneState, g: Gates, d: TickDraws)
    requires ValidTickDraws(d)
    requires Sane(s)
    ensures var t := TickDrone(s, g, d);
      && -MaxAltChange < t.altitude - s.altitude < MaxAltChange
      && (t.speed == 0 || -MaxSpeedChange < t.speed - s.speed < MaxSpeedChange)
  {
    if s.status != Disabled && !(g.battery && Max(0, s.battery - 1) == 0) {
      var s1 := if g.battery then Drain(s) else s;
      var s2 := if g.position then Move(s1, d) else s1;
      assert -MaxAltChange < s2.altitude - s.altitude < MaxAltChange;
      assert s2.speed == 0 || -MaxSpeedChange < s2.speed - s.speed < MaxSpeedChange;
    }
  }

  /** A waiting drone is at rest after a position tick. */
  lemma WaitingStops(s: DroneState, g: Gates, d: TickDraws)
    requires ValidTickDraws(d)
    requires s.status == Waiting && g.position && !g.battery
    ensures TickDrone(s, g, d).speed == 0
  {
  }

  /**
   * Which statuses may follow which: a drone is disabled or sent home only at a
   * charge of at most 5; a home-bound drone stops returning only once parked at
   * home by the position cadence; every other change is the random one, which
   * needs charge above 5 and never picks the disabled or returning status.
   */
  lemma TickTransitions(s: DroneState, g: Gates, d: TickDraws)
    requires ValidTickDraws(d)
    ensures var t := TickDrone(s, g, d);
      && (t.status == Disabled && s.status != Disabled ==> t.battery <= MinBatteryLevel)
      && (t.status == Returning && s.status != Returning ==> t.battery <= MinBatteryLevel)
      && (s.status == Returning && t.status != Returning && t.status != Disabled ==>
            g.position && t.latitude == s.homeLat && t.longitude == s.homeLon)
      && (s.status !in {Returning, Disabled} && t.status !in {s.status, Returning, Disabled} ==>
            g.status && t.battery > MinBatteryLevel)
  {
    var t := TickDrone(s, g, d);
    if s.status != Disabled && !(g.battery && Max(0, s.battery - 1) == 0) {
      var s1 := if g.battery then Drain(s) else s;
      var s2 := if g.position then Move(s1, d) else s1;
      assert s1.battery == s2.battery == t.battery;
      assert s1.status == Returning && s.status != Returning ==> s1.battery <= MinBatteryLevel;
      assert s1.latitude == s.latitude && s1.longitude == s.longitude;
      assert s1.homeLat == s.homeLat && s1.homeLon == s.homeLon;
      assert s2.status == Disabled ==> s1.battery <= MinBatteryLevel;
      assert s2.status == Returning ==> s1.status == Returning;
      assert s1.status == Returning && s2.status != Returning ==>
        g.position && s2.latitude == s.homeLat && s2.longitude == s.homeLon;
      if g.status && t != s2 {
        assert s2.status != Returning && s2.status != Disabled && s2.battery > MinBatteryLevel;
        assert t.status in AvailableStatuses(s2.status);
      }
    }
  }

  // ---------------------------------------------------------------------------
  // Many ticks
  // ---------------------------------------------------------------------------

  /** What one call of the update hands to one drone: the gates and its draws. */
  datatype Step = Step(gates: Gates, draws: TickDraws)

  predicate ValidSteps(steps: seq<Step>) {
    forall i :: 0 <= i < |steps| ==> ValidTickDraws(steps[i].draws)
  }

  /** The drone after a sequence of updates. */
  function Run(s: DroneState, steps: seq<Step>): DroneState
    requires ValidSteps(steps)
    decreases |steps|
  {
    if steps == [] then s else Run(TickDrone(s, steps[0].gates, steps[0].draws), steps[1..])
  }

  /** The charge never grows and never goes below zero over any number of updates. */
  lemma {:induction false} RunBatteryMonotone(s: DroneState, steps: seq<Step>)
    requires ValidSteps(steps)
    requires s.battery >= 0
    ensures 0 <= Run(s, steps).battery <= s.battery
    decreases |steps|
  {
    if steps != [] {
      TickBattery(s, steps[0].gates, steps[0].draws);
      RunBatteryMonotone(TickDrone(s, steps[0].gates, steps[0].draws), steps[1..]);
    }
  }

  /** Once disabled, a drone stays exactly as it is. */
  lemma {:induction false} RunDisabledStays(s: DroneState, steps: seq<Step>)
    requires ValidSteps(steps)
    requires s.status == Disabled
    ensures Run(s, steps) == s
    decreases |steps|
  {
    if steps != [] {
      DisabledIsTerminal(s, steps[0].gates, steps[0].draws);
      RunDisabledStays(s, steps[1..]);
    }
  }

  /** Limits hold over any number of updates. */
  lemma {:induction false} RunPreservesSane(s: DroneState, steps: seq<Step>)
    requires ValidSteps(steps)
    requires Sane(s)
    ensures Sane(Run(s, steps))
    decreases |steps|
  {
    if steps != [] {
      TickPreservesSane(s, steps[0].gates, steps[0].draws);
      RunPreservesSane(TickDrone(s, steps[0].gates, steps[0].draws), steps[1..]);
    }
  }

  // ---------------------------------------------------------------------------
  // The drone object
  // ---------------------------------------------------------------------------

  class Drone {
    var name: string
    var status: Status
    var latitude: real
    var longitude: real
    var altitude: int
    var speed: int
    var battery: int
    var relatedEvent: Option<string>
    var relatedEventInfo: Option<EventInfo>
    var dirLat: real
    var dirLon: real
    var homeLat: real
    var homeLon: real

    function State(): DroneState
      reads this
    {
      DroneState(name, status, latitude, longitude, altitude, speed, battery,
                 relatedEvent, relatedEventInfo, dirLat, dirLon, homeLat, homeLon)
    }

    constructor (s: DroneState)
      ensures State() == s
    {
      name, status, latitude, longitude := s.name, s.status, s.latitude, s.longitude;
      altitude, speed, battery := s.altitude, s.speed, s.battery;
      relatedEvent, relatedEventInfo := s.relatedEvent, s.relatedEventInfo;
      dirLat, dirLon, homeLat, homeLon := s.dirLat, s.dirLon, s.homeLat, s.homeLon;
    }

    /** Writes `related_event` and `related_event_info`, and nothing else. */
    method Bind(eventId: string, info: EventInfo)
      modifies this
      ensures State() == old(State()).(relatedEvent := Some(eventId), relatedEventInfo := Some(info))
    {
      relatedEvent := Some(eventId);
      relatedEventInfo := Some(info);
    }

    /** One pass of the `forEach` callback over this drone, with its early returns. */
    method Tick(g: Gates, d: TickDraws)
      requires ValidTickDraws(d)
      modifies this
      ensures State() == TickDrone(old(State()), g, d)
    {
      if status == Disabled {
        return;
      }
      if g.battery {
        DrainBattery();
        if battery == 0 {
          status := Disabled;
          speed := 0;
          return;
        }
      }
      if g.position {
        UpdatePosition(d);
      }
      if g.status {
        MaybeChangeStatus(d);
      }
    }

    /** The battery block: one unit less, floored at 0, and home-bound at 5 or below. */
    method DrainBattery()
      modifies this
      ensures State() == Drain(old(State()))
    {
      battery := Max(0, battery - 1);
      if battery <= MinBatteryLevel && status != Disabled {
        status := Returning;
      }
    }

    /** The position block, by status. */
    method UpdatePosition(d: TickDraws)
      requires ValidTickDraws(d)
      modifies this
      ensures State() == Move(old(State()), d)
    {
      if status == Returning {
        MoveHome(d);
      } else if status != Waiting && status != Disabled {
        MoveRandomly(d);
      } else if status == Waiting {
        speed := 0;
      }
    }

    /** Homeward movement of a returning drone. */
    method MoveHome(d: TickDraws)
      requires ValidTickDraws(d)
      modifies this
      ensures State() == ReturnStep(old(State()), d)
    {
      var distToHomeX := homeLat - latitude;
      var distToHomeY := homeLon - longitude;
      if distToHomeX * distToHomeX + distToHomeY * distToHomeY < HomeRadius * HomeRadius {
        latitude := homeLat;
        longitude := homeLon;
        speed := 0;
        if battery <= MinBatteryLevel {
          status := Disabled;
        } else {
          status := Waiting;
        }
      } else {
        latitude := latitude + d.homeStepLat;
        longitude := longitude + d.homeStepLon;
        var speedChange := RandomInt(d.speedChange, 0, MaxSpeedChange);
        var targetSpeed := RandomInt(d.targetSpeed, 40, 60);
        speed := Max(MinSpeed, Min(MaxSpeed, if speed > targetSpeed then speed - speedChange else speed + speedChange));
      }
    }

    /** Random movement of an active or on-mission drone. */
    method MoveRandomly(d: TickDraws)
      requires ValidTickDraws(d)
      modifies this
      ensures State() == PatrolStep(old(State()), d)
    {
      dirLat := RandomNumber(d.dirLat, -0.001, 0.001);
      dirLon := RandomNumber(d.dirLon, -0.001, 0.001);
      latitude := latitude + dirLat;
      longitude := longitude + dirLon;
      var speedChange := RandomInt(d.speedChange, 0, MaxSpeedChange);
      if d.speedCoin > 0.5 {
        speed := Min(MaxSpeed, speed + speedChange);
      } else {
        speed := Max(MinSpeed, speed - speedChange);
      }
      var altChange := RandomInt(d.altChange, 0, MaxAltChange);
      if d.altCoin > 0.5 {
        altitude := Min(MaxAltitude, altitude + altChange);
      } else {
        altitude := Max(MinAltitude, altitude - altChange);
      }
    }

    /** The status block: with chance 0.2 an eligible drone picks one of the other two ordinary statuses. */
    method MaybeChangeStatus(d: TickDraws)
      requires ValidTickDraws(d)
      modifies this
      ensures State() == ChangeStatus(old(State()), d)
    {
      if status != Returning && status != Disabled && battery > MinBatteryLevel {
        if d.statusGate < StatusChangeChance {
          var availableStatuses := AvailableStatuses(status);
          AvailableStatusesCount(status);
          status := availableStatuses[RandomIndex(d.statusPick, |availableStatuses|)];
        }
      }
    }
  }

  // ---------------------------------------------------------------------------
  // The cadence clock (lastUpdates)
  // ---------------------------------------------------------------------------

  /** `lastUpdates`: when each cadence last fired, in milliseconds. */
  datatype Clock = Clock(position: int, battery: int, status: int)

  /**
   * The `shouldUpdate*` flags at time `now`. The battery and status cadences
   * share one interval, so while their stamps agree they fire together.
   */
  function Due(c: Clock, now: int): (g: Gates)
    // a cadence stamped at or after the call is not yet due
    ensures now <= c.position ==> !g.position
    ensures now <= c.battery ==> !g.battery
    ensures now <= c.status ==> !g.status
    ensures c.battery == c.status ==> g.battery == g.status
  {
    Gates(now - c.position >= PositionInterval, now - c.battery >= BatteryInterval, now - c.status >= StatusInterval)
  }

  /** The fired cadences are stamped `now`; the others keep their time. */
  function Advance(c: Clock, now: int): (r: Clock)
    // stamps never go back in time
    ensures c.position <= r.position && c.battery <= r.battery && c.status <= r.status
    // a second call at the same instant fires nothing
    ensures var g := Due(r, now); !g.position && !g.battery && !g.status
    // equal battery and status stamps stay equal
    ensures c.battery == c.status ==> r.battery == r.status
  {
    var g := Due(c, now);
    Clock(if g.position then now else c.position,
          if g.battery then now else c.battery,
          if g.status then now else c.status)
  }

  /**
   * Rate limit: after a cadence fires at `t1`, the next call at `t2` fires it
   * again exactly when a full interval has passed; a cadence that did not fire
   * keeps its stamp, so it fires at `t2` as it would have without the call.
   */
  lemma Cadence(c: Clock, t1: int, t2: int)
    ensures Due(c, t1).position ==> (Due(Advance(c, t1), t2).position <==> t2 - t1 >= PositionInterval)
    ensures Due(c, t1).battery ==> (Due(Advance(c, t1), t2).battery <==> t2 - t1 >= BatteryInterval)
    ensures Due(c, t1).status ==> (Due(Advance(c, t1), t2).status <==> t2 - t1 >= StatusInterval)
    ensures !Due(c, t1).position ==> Due(Advance(c, t1), t2).position == Due(c, t2).position
    ensures !Due(c, t1).battery ==> Due(Advance(c, t1), t2).battery == Due(c, t2).battery
    ensures !Due(c, t1).status ==> Due(Advance(c, t1), t2).status == Due(c, t2).status
  {
  }

  /** Calls closer together than 2 s never move a drone twice. */
  lemma PositionRateLimit(c: Clock, t1: int, t2: int)
    requires t1 <= t2 < t1 + PositionInterval
    ensures !(Due(c, t1).position && Due(Advance(c, t1), t2).position)
  {
    Cadence(c, t1, t2);
  }

  // ---------------------------------------------------------------------------
  // simulateDroneData
  // ---------------------------------------------------------------------------

  /** The options of `simulateDroneData`, every one of them given. */
  datatype Options = Options(
    baseLat: real, baseLon: real, maxDistance: real,
    minAltitude: int, maxAltitude: int, minSpeed: int, maxSpeed: int,
    minBattery: int, maxBattery: int)

  /** The defaults the source destructures `options` with (the centre of Moscow). */
  const DefaultOptions := Options(55.751244, 37.618423, 0.05, MinAltitude, MaxAltitude, MinSpeed, MaxSpeed, 50, 100)

  /** The eight draws spent on one new drone, in the source's order. */
  datatype SpawnDraws = SpawnDraws(lat: real, lon: real, status: real, altitude: real, speed: real,
                                   battery: real, dirLat: real, dirLon: real)

  predicate ValidSpawnDraws(d: SpawnDraws) {
    && IsUnit(d.lat) && IsUnit(d.lon) && IsUnit(d.status) && IsUnit(d.altitude)
    && IsUnit(d.speed) && IsUnit(d.battery) && IsUnit(d.dirLat) && IsUnit(d.dirLon)
  }

  function DroneKey(i: nat): string { "drone-" + NatToString(i) }

  /** Distinct loop indices give distinct keys. */
  lemma DroneKeyInjective(i: nat, j: nat)
    requires DroneKey(i) == DroneKey(j)
    ensures i == j
  {
    PrefixedNumberInjective("drone-", i, j);
  }

  /** The record created for drone number `i`. */
  function SpawnDrone(i: nat, o: Options, d: SpawnDraws): (s: DroneState)
    requires ValidSpawnDraws(d)
    ensures s.name == "Дрон " + NatToString(i)
    ensures s.status != Disabled
    ensures s.relatedEvent == None && s.relatedEventInfo == None
    ensures s.homeLat == o.baseLat && s.homeLon == o.baseLon
    ensures o.maxDistance >= 0.0 ==>
      && o.baseLat - o.maxDistance <= s.latitude <= o.baseLat + o.maxDistance
      && o.baseLon - o.maxDistance <= s.longitude <= o.baseLon + o.maxDistance
    ensures o.minAltitude < o.maxAltitude ==> o.minAltitude <= s.altitude < o.maxAltitude
    ensures o.minSpeed < o.maxSpeed ==> o.minSpeed <= s.speed < o.maxSpeed
    ensures o.minBattery < o.maxBattery ==> o.minBattery <= s.battery < o.maxBattery
    ensures -0.0001 <= s.dirLat <= 0.0001 && -0.0001 <= s.dirLon <= 0.0001
  {
    var coords := GenerateCoordinates(o.baseLat, o.baseLon, o.maxDistance, d.lat, d.lon);
    DroneState(
      "Дрон " + NatToString(i),
      DroneStatuses[RandomIndex(d.status, |DroneStatuses| - 1)],
      coords.latitude, coords.longitude,
      RandomInt(d.altitude, o.minAltitude, o.maxAltitude),
      RandomInt(d.speed, o.minSpeed, o.maxSpeed),
      RandomInt(d.battery, o.minBattery, o.maxBattery),
      None, None,
      RandomNumber(d.dirLat, -0.0001, 0.0001), RandomNumber(d.dirLon, -0.0001, 0.0001),
      o.baseLat, o.baseLon)
  }

  /** With the default options a new drone is within the limits and charged 50 to 99. */
  lemma DefaultSpawnIsSane(i: nat, d: SpawnDraws)
    requires ValidSpawnDraws(d)
    ensures Sane(SpawnDrone(i, DefaultOptions, d))
    ensures 50 <= SpawnDrone(i, DefaultOptions, d).battery < 100
  {
  }

  /**
   * A fleet, the object keyed by drone id: the ids in insertion order
   * (`Object.keys` order) and, at the same position, the drone object under
   * each id.
   */
  datatype Fleet = Fleet(keys: seq<string>, drones: seq<Drone>)

  const EmptyFleet := Fleet([], [])

  /** One object per id, ids distinct, and no two ids share a drone object. */
  predicate ValidFleet(f: Fleet) {
    && |f.keys| == |f.drones|
    && (forall i, j :: 0 <= i < j < |f.keys| ==> f.keys[i] != f.keys[j])
    && (forall i, j :: 0 <= i < j < |f.drones| ==> f.drones[i] != f.drones[j])
  }

  /** The current records of a sequence of drone objects. */
  function States(drones: seq<Drone>): (r: seq<DroneState>)
    reads drones
    ensures |r| == |drones|
    ensures forall i :: 0 <= i < |drones| ==> r[i] == drones[i].State()
  {
    if drones == [] then [] else States(drones[..|drones| - 1]) + [drones[|drones| - 1].State()]
  }

  /** The keys `simulateDroneData` gives are distinct. */
  lemma DroneKeysDistinct(keys: seq<string>)
    requires forall j :: 0 <= j < |keys| ==> keys[j] == DroneKey(j + 1)
    ensures forall i, j :: 0 <= i < j < |keys| ==> keys[i] != keys[j]
  {
    forall i, j | 0 <= i < j < |keys|
      ensures keys[i] != keys[j]
    {
      if keys[i] == keys[j] {
        DroneKeyInjective(i + 1, j + 1);
      }
    }
  }

  /** The module-level `lastUpdates` and the two exported operations that use it. */
  class Simulator {
    var lastUpdates: Clock

    /** Loading the module stamps all three cadences with the load time. */
    constructor (now: int)
      ensures lastUpdates == Clock(now, now, now)
    {
      lastUpdates := Clock(now, now, now);
    }

    /** `simulateDroneData(count, options)`: drones "drone-1".."drone-count", and a fresh clock. */
    method SimulateDroneData(count: int, options: Options, now: int, draws: seq<SpawnDraws>) returns (fleet: Fleet)
      requires |draws| == Max(count, 0)
      requires forall i :: 0 <= i < |draws| ==> ValidSpawnDraws(draws[i])
      modifies this
      ensures lastUpdates == Clock(now, now, now)
      ensures ValidFleet(fleet)
      ensures |fleet.keys| == |draws|
      ensures forall i :: 0 <= i < |fleet.keys| ==> fleet.keys[i] == DroneKey(i + 1)
      ensures forall i :: 0 <= i < |fleet.drones| ==> fresh(fleet.drones[i])
      ensures forall i :: 0 <= i < |fleet.drones| ==> fleet.drones[i].State() == SpawnDrone(i + 1, options, draws[i])
    {
      var keys: seq<string> := [];
      var drones: seq<Drone> := [];
      var i := 1;
      while i <= count
        invariant 1 <= i <= Max(count, 0) + 1
        invariant |keys| == |drones| == i - 1
        invariant forall j :: 0 <= j < |keys| ==> keys[j] == DroneKey(j + 1)
        invariant forall j :: 0 <= j < |drones| ==> fresh(drones[j])
        invariant forall j, k :: 0 <= j < k < |drones| ==> drones[j] != drones[k]
        invariant forall j :: 0 <= j < |drones| ==> drones[j].State() == SpawnDrone(j + 1, options, draws[j])
      {
        var drone := new Drone(SpawnDrone(i, options, draws[i - 1]));
        keys := keys + [DroneKey(i)];
        drones := drones + [drone];
        i := i + 1;
      }
      DroneKeysDistinct(keys);
      fleet := Fleet(keys, drones);
      lastUpdates := Clock(now, now, now);
    }

    /**
     * `updateSimulatedDrones(existingData)`: nothing to update gives an empty
     * fleet and leaves the clock alone; otherwise the cadences are evaluated once,
     * fired ones are re-stamped, and every drone of the (shallow-copied, hence
     * the same) fleet is ticked in place.
     */
    method UpdateSimulatedDrones(existing: Option<Fleet>, now: int, draws: seq<TickDraws>) returns (updated: Fleet)
      requires existing.Some? ==> ValidFleet(existing.value) && |draws| == |existing.value.drones|
      requires forall i :: 0 <= i < |draws| ==> ValidTickDraws(draws[i])
      modifies this, if existing.Some? then existing.value.drones else []
      ensures existing.None? ==> updated == EmptyFleet && lastUpdates == old(lastUpdates)
      ensures existing.Some? ==> updated == existing.value && lastUpdates == Advance(old(lastUpdates), now)
      ensures existing.Some? ==> forall i :: 0 <= i < |updated.drones| ==>
        updated.drones[i].State() == TickDrone(old(updated.drones[i].State()), Due(old(lastUpdates), now), draws[i])
    {
      if existing.None? {
        return EmptyFleet;
      }
      updated := existing.value;
      var gates := Due(lastUpdates, now);
      lastUpdates := Advance(lastUpdates, now);
      for i := 0 to |updated.drones|
        invariant lastUpdates == Advance(old(lastUpdates), now)
        invariant forall j :: 0 <= j < i ==>
          updated.drones[j].State() == TickDrone(old(updated.drones[j].State()), gates, draws[j])
        invariant forall j :: i <= j < |updated.drones| ==> updated.drones[j].State() == old(updated.drones[j].State())
      {
        updated.drones[i].Tick(gates, draws[i]);
      }
    }
  }

  // ---------------------------------------------------------------------------
  // getBatteryColor
  // ---------------------------------------------------------------------------

  const Red := "#f44336"
  const Orange := "#ff9800"
  const Yellow := "#ffc107"
  const Green := "#4caf50"

  /** `getBatteryColor(level)`: red up to 10, orange up to 30, yellow up to 60, green above. */
  function BatteryColor(level: real): (c: string)
    ensures c == Red <==> level <= 10.0
    ensures c == Orange <==> 10.0 < level <= 30.0
    ensures c == Yellow <==> 30.0 < level <= 60.0
    ensures c == Green <==> level > 60.0
  {
    if level <= 10.0 then Red
    else if level <= 30.0 then Orange
    else if level <= 60.0 then Yellow
    else Green
  }

  /** Position of a colour on the scale from empty to full. */
  function ColorRank(c: string): nat {
    if c == Red then 0 else if c == Orange then 1 else if c == Yellow then 2 else 3
  }

  /** More charge never shows a colour lower on the scale. */
  lemma BatteryColorMonotone(a: real, b: real)
    requires a <= b
    ensures ColorRank(BatteryColor(a)) <= ColorRank(BatteryColor(b))
  {
  }
}
