/**
 * The emergency-event generator of the dashboard (frontend/src/utils/eventUtils.js):
 * fixed catalogues of event types, severities, cities and streets, batches of
 * sampled events with an occasional critical "evacuation" escalation, one-off
 * events for periodic injection, per-severity statistics, and the cached copy of
 * the event list kept under the key 'emergency_events' of the browser's storage.
 *
 * `Math.random()` is an explicit draw in [0, 1) and `Date.now()` an explicit
 * number of milliseconds; `created_at` is kept as that number rather than as
 * its ISO-8601 text.
 */
module Events {
  import opened Common

  const EventTypes: seq<string> := [
    "Пожар", "Наводнение", "Землетрясение", "Ураган", "Торнадо",
    "Оползень", "Лавина", "Цунами", "Извержение вулкана", "Техногенная катастрофа",
    "Химическая утечка", "Радиационная опасность"
  ]
  const SeverityLevels: seq<string> := ["Низкая", "Средняя", "Высокая", "Критическая"]
  const Cities: seq<string> := ["Москва", "Санкт-Петербург", "Казань", "Новосибирск", "Екатеринбург", "Владивосток"]
  const Streets: seq<string> := [
    "ул. Ленина, 23", "пр. Мира, 105", "ул. Гагарина, 56",
    "ул. Пушкина, 10", "пл. Победы, 1", "ул. Советская, 78",
    "ул. Строителей, 45", "ул. Космонавтов, 32"
  ]

  const ActiveStatus := "Активно"
  const CriticalSeverity := "Критическая"
  const EvacuationType := "Эвакуация"
  const EvacuationTitle := "ВНИМАНИЕ! ЭВАКУАЦИЯ!"
  const EvacuationDescription :=
    "Критическая опасность! Требуется немедленная эвакуация населения в ближайшие убежища! Следуйте указаниям спасателей МЧС!"
  const HourMs := 3600000
  /** Chance that a batch is preceded by an evacuation event. */
  const BatchEvacuationChance := 0.3
  /** Chance that a single generated event is turned into an evacuation event. */
  const SingleEvacuationChance := 0.1

  datatype Event = Event(
    id: string,          // "" stands for a missing id
    title: string,
    description: string,
    severity: string,
    location: string,
    eventType: string,   // event_type
    createdAt: int,      // created_at, in milliseconds since the epoch
    status: string)

  // ---------------------------------------------------------------------------
  // Sampling one event from the catalogues
  // ---------------------------------------------------------------------------

  /** The four draws that pick type, severity, city and street. */
  datatype CatalogueDraw = CatalogueDraw(eventType: real, severity: real, city: real, street: real)

  predicate ValidCatalogueDraw(d: CatalogueDraw) {
    IsUnit(d.eventType) && IsUnit(d.severity) && IsUnit(d.city) && IsUnit(d.street)
  }

  function Location(city: string, street: string): string { city + ", " + street }

  /** The location is "city, street" taken from the catalogues. */
  ghost predicate CatalogueLocation(location: string) {
    exists city, street :: city in Cities && street in Streets && location == Location(city, street)
  }

  function SampledDescription(severity: string, eventType: string, location: string): string {
    severity + " опасность: " + Lower(eventType) + " в районе " + location + ". Соблюдайте меры предосторожности."
  }

  /** The event literal built from one catalogue draw (the loop body of generateRandomEvents, and generateRandomEvent). */
  function SampledEvent(id: string, createdAt: int, d: CatalogueDraw): (e: Event)
    requires ValidCatalogueDraw(d)
    ensures e.id == id && e.createdAt == createdAt && e.status == ActiveStatus
    ensures e.severity in SeverityLevels && e.eventType in EventTypes
    ensures CatalogueLocation(e.location)
    ensures e.title == "ЧС: " + e.eventType
  {
    var eventType := GetRandomItem(EventTypes, d.eventType).value;
    var severity := GetRandomItem(SeverityLevels, d.severity).value;
    var city := GetRandomItem(Cities, d.city).value;
    var street := GetRandomItem(Streets, d.street).value;
    var location := Location(city, street);
    Event(id, "ЧС: " + eventType, SampledDescription(severity, eventType, location),
          severity, location, eventType, createdAt, ActiveStatus)
  }

  /** The fixed critical "evacuation" template at a freshly sampled location. */
  function EvacuationEvent(now: nat, cityDraw: real, streetDraw: real): (e: Event)
    requires IsUnit(cityDraw) && IsUnit(streetDraw)
    ensures e.severity == CriticalSeverity && e.eventType == EvacuationType
    ensures e.title == EvacuationTitle && e.createdAt == now && e.status == ActiveStatus
    ensures StartsWith(e.id, "evacuation-")
    ensures CatalogueLocation(e.location)
  {
    var city := GetRandomItem(Cities, cityDraw).value;
    var street := GetRandomItem(Streets, streetDraw).value;
    Event("evacuation-" + NatToString(now), EvacuationTitle, EvacuationDescription,
          CriticalSeverity, Location(city, street), EvacuationType, now, ActiveStatus)
  }

  // ---------------------------------------------------------------------------
  // generateRandomEvents
  // ---------------------------------------------------------------------------

  /** Draws for one sampled event of a batch: the hour offset and the catalogue picks. */
  datatype SampleDraw = SampleDraw(hours: real, pick: CatalogueDraw)

  /** Draws for one batch: the event count, one draw per event, and the evacuation gate and its location. */
  datatype BatchDraws = BatchDraws(count: real, samples: seq<SampleDraw>, evacuation: real, evacCity: real, evacStreet: real)

  predicate ValidBatchDraws(d: BatchDraws) {
    && IsUnit(d.count) && IsUnit(d.evacuation) && IsUnit(d.evacCity) && IsUnit(d.evacStreet)
    && ValidSamples(d.samples)
  }

  /** The number of sampled events: `count` when positive, otherwise 3 to 7. */
  function NumEvents(count: int, u: real): (n: nat)
    requires IsUnit(u)
    ensures count > 0 ==> n == count
    ensures count <= 0 ==> 3 <= n <= 7
  {
    if count > 0 then count else RandomIndex(u, 5) + 3
  }

  function BatchId(now: nat, i: nat): string {
    "evt-" + NatToString(now) + "-" + NatToString(i)
  }

  /** `now` backdated by a whole number of hours in [0, 23]. */
  function BatchCreatedAt(now: nat, hoursDraw: real): (t: int)
    requires IsUnit(hoursDraw)
    ensures t <= now && now - t <= 23 * HourMs && (now - t) % HourMs == 0
  {
    now - RandomIndex(hoursDraw, 24) * HourMs
  }

  /** Event i of a batch, built from its draw. */
  function BatchEvent(now: nat, i: nat, d: SampleDraw): Event
    requires IsUnit(d.hours) && ValidCatalogueDraw(d.pick)
  {
    SampledEvent(BatchId(now, i), BatchCreatedAt(now, d.hours), d.pick)
  }

  predicate ValidSamples(samples: seq<SampleDraw>) {
    forall i :: 0 <= i < |samples| ==> IsUnit(samples[i].hours) && ValidCatalogueDraw(samples[i].pick)
  }

  /** The first `n` sampled events of a batch, in the order the loop pushes them. */
  function SampledBatch(now: nat, samples: seq<SampleDraw>, n: nat): (events: seq<Event>)
    requires ValidSamples(samples) && n <= |samples|
    ensures |events| == n
  {
    if n == 0 then [] else SampledBatch(now, samples, n - 1) + [BatchEvent(now, n - 1, samples[n - 1])]
  }

  /** Event i of the sampled part is built from draw i. */
  lemma {:induction false} SampledBatchAt(now: nat, samples: seq<SampleDraw>, n: nat, i: nat)
    requires ValidSamples(samples) && n <= |samples|
    requires i < n
    ensures SampledBatch(now, samples, n)[i] == BatchEvent(now, i, samples[i])
    decreases n
  {
    if i < n - 1 {
      SampledBatchAt(now, samples, n - 1, i);
    }
  }

  /**
   * `generateRandomEvents(count)`: fills the list in a loop, then with chance 0.3
   * puts one evacuation event in front.
   */
  method GenerateRandomEvents(count: int, now: nat, draws: BatchDraws) returns (events: seq<Event>)
    requires ValidBatchDraws(draws)
    requires |draws.samples| == NumEvents(count, draws.count)
    ensures events == (if draws.evacuation < BatchEvacuationChance
                       then [EvacuationEvent(now, draws.evacCity, draws.evacStreet)] else [])
                      + SampledBatch(now, draws.samples, |draws.samples|)
    ensures |events| == |draws.samples| + (if draws.evacuation < BatchEvacuationChance then 1 else 0)
    ensures count > 0 ==> |events| == count || |events| == count + 1
    ensures count <= 0 ==> 3 <= |events| <= 8
  {
    var numEvents := if count > 0 then count else RandomIndex(draws.count, 5) + 3;
    events := [];
    var i := 0;
    while i < numEvents
      invariant 0 <= i <= numEvents
      invariant events == SampledBatch(now, draws.samples, i)
    {
      events := events + [BatchEvent(now, i, draws.samples[i])];
      i := i + 1;
    }
    if draws.evacuation < BatchEvacuationChance {
      var evacuationEvent := EvacuationEvent(now, draws.evacCity, draws.evacStreet);
      events := [evacuationEvent] + events;
    }
    assert |events| == |draws.samples| + (if draws.evacuation < BatchEvacuationChance then 1 else 0);
  }

  /**
   * What a batch promises about each sampled event: catalogue fields, a creation
   * time at most 23 whole hours before `now`, and pairwise distinct ids.
   */
  lemma SampledBatchProperties(now: nat, samples: seq<SampleDraw>)
    requires ValidSamples(samples)
    ensures forall i :: 0 <= i < |samples| ==>
      var e := SampledBatch(now, samples, |samples|)[i];
      && e.severity in SeverityLevels && e.eventType in EventTypes && CatalogueLocation(e.location)
      && e.createdAt <= now && now - e.createdAt <= 23 * HourMs && (now - e.createdAt) % HourMs == 0
      && e.id == BatchId(now, i)
    ensures forall i, j :: 0 <= i < j < |samples| ==> SampledBatch(now, samples, |samples|)[i].id != SampledBatch(now, samples, |samples|)[j].id
  {
    var events := SampledBatch(now, samples, |samples|);
    forall i | 0 <= i < |samples|
      ensures events[i] == BatchEvent(now, i, samples[i])
    {
      SampledBatchAt(now, samples, |samples|, i);
    }
    forall i, j | 0 <= i < j < |samples|
      ensures events[i].id != events[j].id
    {
      if events[i].id == events[j].id {
        BatchIdInjective(now, i, j);
      }
    }
  }

  lemma BatchIdInjective(now: nat, i: nat, j: nat)
    requires BatchId(now, i) == BatchId(now, j)
    ensures i == j
  {
    PrefixedNumberInjective("evt-" + NatToString(now) + "-", i, j);
  }

  /** An evacuation id never equals a sampled id, so every id of one batch is distinct. */
  lemma BatchIdsDistinct(now: nat, draws: BatchDraws, events: seq<Event>)
    requires ValidBatchDraws(draws)
    requires events == (if draws.evacuation < BatchEvacuationChance
                        then [EvacuationEvent(now, draws.evacCity, draws.evacStreet)] else [])
                       + SampledBatch(now, draws.samples, |draws.samples|)
    ensures forall i, j :: 0 <= i < j < |events| ==> events[i].id != events[j].id
  {
    var sampled := SampledBatch(now, draws.samples, |draws.samples|);
    SampledBatchProperties(now, draws.samples);
    if draws.evacuation < BatchEvacuationChance {
      var evacuation := EvacuationEvent(now, draws.evacCity, draws.evacStreet);
      forall j | 1 <= j < |events|
        ensures events[0].id != events[j].id
      {
        assert events[j] == sampled[j - 1];
        EvacuationIdIsNotBatchId(now, j - 1);
      }
    }
  }

  lemma EvacuationIdIsNotBatchId(now: nat, i: nat)
    ensures "evacuation-" + NatToString(now) != BatchId(now, i)
  {
    var evacuationId, batchId := "evacuation-" + NatToString(now), BatchId(now, i);
    assert evacuationId[2] == 'a';
    assert batchId[2] == 't';
  }

  // ---------------------------------------------------------------------------
  // generateRandomEvent
  // ---------------------------------------------------------------------------

  /**
   * `generateRandomEvent()`: one sampled event stamped `now`; with chance 0.1 its
   * id, title, description, severity and type are overwritten by the evacuation
   * template, while location, creation time and status are kept.
   */
  method GenerateRandomEvent(now: nat, pick: CatalogueDraw, evacuation: real) returns (e: Event)
    requires ValidCatalogueDraw(pick) && IsUnit(evacuation)
    ensures var sampled := SampledEvent("evt-" + NatToString(now), now, pick);
      && e.location == sampled.location && e.createdAt == now && e.status == ActiveStatus
      && (evacuation >= SingleEvacuationChance ==> e == sampled)
    ensures evacuation < SingleEvacuationChance ==>
      && e.id == "evacuation-" + NatToString(now) && e.title == EvacuationTitle
      && e.description == EvacuationDescription && e.severity == CriticalSeverity && e.eventType == EvacuationType
    ensures e.severity in SeverityLevels && CatalogueLocation(e.location)
  {
    e := SampledEvent("evt-" + NatToString(now), now, pick);
    if evacuation < SingleEvacuationChance {
      e := e.(id := "evacuation-" + NatToString(now), title := EvacuationTitle,
              description := EvacuationDescription, severity := CriticalSeverity,
              eventType := EvacuationType);
    }
  }

  // ---------------------------------------------------------------------------
  // generateStats
  // ---------------------------------------------------------------------------

  datatype Stats = Stats(total: int, active: int, bySeverity: map<string, int>)

  /** Number of events carrying exactly the severity `level`. */
  function CountSeverity(events: seq<Event>, level: string): nat
  {
    if events == [] then 0
    else CountSeverity(events[..|events| - 1], level) + (if events[|events| - 1].severity == level then 1 else 0)
  }

  /** Number of events whose severity is none of the four levels. */
  function CountUnknownSeverity(events: seq<Event>): nat
  {
    if events == [] then 0
    else CountUnknownSeverity(events[..|events| - 1]) + (if events[|events| - 1].severity in SeverityLevels then 0 else 1)
  }

  /**
   * `generateStats(events)`: counts per severity key in one pass; `active` is the
   * list length and `total` adds 0 to 4 "historical" events.
   */
  method GenerateStats(events: seq<Event>, u: real) returns (stats: Stats)
    requires IsUnit(u)
    ensures stats.active == |events|
    ensures |events| <= stats.total <= |events| + 4
    ensures stats.bySeverity.Keys == {"Низкая", "Средняя", "Высокая", "Критическая"}
    ensures forall level :: level in stats.bySeverity ==> stats.bySeverity[level] == CountSeverity(events, level)
  {
    var bySeverity: map<string, int> := map["Низкая" := 0, "Средняя" := 0, "Высокая" := 0, "Критическая" := 0];
    for i := 0 to |events|
      invariant bySeverity.Keys == {"Низкая", "Средняя", "Высокая", "Критическая"}
      invariant forall level :: level in bySeverity ==> bySeverity[level] == CountSeverity(events[..i], level)
    {
      assert events[..i + 1][..i] == events[..i];
      var severity := events[i].severity;
      if severity != "" && severity in bySeverity {
        bySeverity := bySeverity[severity := bySeverity[severity] + 1];
      }
    }
    assert events[..|events|] == events;
    stats := Stats(|events| + RandomIndex(u, 5), |events|, bySeverity);
  }

  /** Every event is counted under exactly one severity key or under none. */
  lemma {:induction false} SeverityPartition(events: seq<Event>)
    ensures CountSeverity(events, "Низкая") + CountSeverity(events, "Средняя")
            + CountSeverity(events, "Высокая") + CountSeverity(events, "Критическая")
            + CountUnknownSeverity(events) == |events|
  {
    if events != [] {
      SeverityPartition(events[..|events| - 1]);
    }
  }

  // ---------------------------------------------------------------------------
  // The cached list in the browser's storage: saveEvents / loadEvents
  // ---------------------------------------------------------------------------

  /**
   * What the storage holds under a key: the JSON text of an event list, or text
   * that does not parse as JSON, or the empty string.
   */
  datatype Stored = EventList(events: seq<Event>) | Malformed(text: string)

  type Store = map<string, Stored>

  const EventsKey := "emergency_events"

  /** `saveEvents(events)`: overwrites the cached list and returns the events unchanged. */
  function SaveEvents(store: Store, events: seq<Event>): (r: (Store, seq<Event>))
    ensures r.1 == events
    ensures r.0.Keys == store.Keys + {EventsKey}
    ensures forall k :: k in store && k != EventsKey ==> r.0[k] == store[k]
  {
    (store[EventsKey := EventList(events)], events)
  }

  /** `loadEvents()`: the cached list, or [] when nothing is stored or the text does not parse. */
  function LoadEvents(store: Store): (events: seq<Event>)
    ensures EventsKey !in store ==> events == []
    ensures EventsKey in store && store[EventsKey].Malformed? ==> events == []
  {
    if EventsKey in store && store[EventsKey].EventList? then store[EventsKey].events else []
  }

  /** Loading right after saving gives back exactly what was saved. */
  lemma SaveThenLoad(store: Store, events: seq<Event>)
    ensures LoadEvents(SaveEvents(store, events).0) == events
  {
  }
}
