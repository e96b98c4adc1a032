/**
 * The event list view (frontend/src/components/EventsList.js): the list it
 * shows is read from the cache when it mounts and then driven by the
 * socket's messages, every change being written back to the cache; each
 * entry gets a CSS class from its severity and a chip colour.
 */
module EventsList {
  import opened Common
  import opened Events
  import opened MockServer

  /**
   * A socket message after JSON parsing: the full list, one new event, or a
   * message of any other type (drone telemetry among them).
   */
  datatype Message = InitialEvents(events: seq<Event>) | EmergencyEvent(event: Event) | OtherMessage(kind: string)

  /** The list after one message: replaced, prepended to (without any cap), or unchanged. */
  function Reduce(events: seq<Event>, m: Message): (r: seq<Event>)
    ensures m.InitialEvents? ==> r == m.events
    ensures m.EmergencyEvent? ==> |r| == |events| + 1 && r[0] == m.event && r[1..] == events
    ensures m.OtherMessage? ==> r == events
  {
    match m
    case InitialEvents(list) => list
    case EmergencyEvent(e) => [e] + events
    case OtherMessage(_) => events
  }

  /** The list after a series of messages, handled in order. */
  function ReduceAll(events: seq<Event>, ms: seq<Message>): seq<Event>
    decreases |ms|
  {
    if ms == [] then events else ReduceAll(Reduce(events, ms[0]), ms[1..])
  }

  predicate AllEmergency(ms: seq<Message>) {
    forall i :: 0 <= i < |ms| ==> ms[i].EmergencyEvent?
  }

  /** The events carried by a series of 'emergency_event' messages, newest first. */
  function NewestFirst(ms: seq<Message>): (r: seq<Event>)
    requires AllEmergency(ms)
    ensures |r| == |ms|
    decreases |ms|
  {
    if ms == [] then [] else NewestFirst(ms[1..]) + [ms[0].event]
  }

  /**
   * k 'emergency_event' messages grow the list by exactly k, newest first,
   * with the earlier list after them in its order: nothing is ever dropped.
   */
  lemma {:induction false} EmergencyMessagesAccumulate(events: seq<Event>, ms: seq<Message>)
    requires AllEmergency(ms)
    ensures ReduceAll(events, ms) == NewestFirst(ms) + events
    ensures |ReduceAll(events, ms)| == |events| + |ms|
    decreases |ms|
  {
    if ms != [] {
      assert AllEmergency(ms[1..]) by {
        forall i | 0 <= i < |ms[1..]|
          ensures ms[1..][i].EmergencyEvent?
        {
          assert ms[1..][i] == ms[i + 1];
        }
      }
      EmergencyMessagesAccumulate([ms[0].event] + events, ms[1..]);
      assert NewestFirst(ms[1..]) + ([ms[0].event] + events) == (NewestFirst(ms[1..]) + [ms[0].event]) + events;
    }
  }

  /**
   * The view's uncapped prepend and the mock server's 20-entry cache agree on
   * the first 20 events and differ only in what the cache drops.
   */
  lemma CacheIsPrefixOfList(events: seq<Event>, e: Event)
    ensures PrependCapped(e, events) == Reduce(events, EmergencyEvent(e))[..Min(|events| + 1, CacheLimit)]
    ensures |events| >= CacheLimit ==> |PrependCapped(e, events)| < |Reduce(events, EmergencyEvent(e))|
  {
  }

  /**
   * One 5-minute injection in the order the source runs it: `_simulateMessage`
   * calls the view's handler at once, which writes the view's list to the
   * cache; the mock server then reads that cache back and prepends the same
   * event again.
   */
  function InjectAsWritten(store: Store, events: seq<Event>, e: Event): (r: Store)
    ensures LoadEvents(r) == PrependCapped(e, Reduce(events, EmergencyEvent(e)))
    ensures forall k :: k in store && k != EventsKey ==> k in r && r[k] == store[k]
  {
    CacheInjectedEvent(SaveEvents(store, Reduce(events, EmergencyEvent(e))).0, e)
  }

  /** As written, the injected event is cached twice, and the cache no longer matches the view's list. */
  lemma InjectionCachesEventTwice(store: Store, events: seq<Event>, e: Event)
    ensures var cache := LoadEvents(InjectAsWritten(store, events, e));
      |cache| >= 2 && cache[0] == e && cache[1] == e
    ensures |events| + 2 <= CacheLimit ==>
      LoadEvents(InjectAsWritten(store, events, e)) != Reduce(events, EmergencyEvent(e))
  {
    var cache := LoadEvents(InjectAsWritten(store, events, e));
    assert |cache| == Min(|events| + 2, CacheLimit);
  }

  /**
   * The mock server's cache write with the duplicate removed: when the cache
   * already starts with the event, the cache is only capped.
   */
  function CacheInjectedEventOnce(store: Store, e: Event): (r: Store)
    ensures Unreadable(store) ==> r == store
    ensures var saved := LoadEvents(store);
      !Unreadable(store) && |saved| > 0 && saved[0] == e ==>
        r == store[EventsKey := EventList(saved[..Min(|saved|, CacheLimit)])]
    ensures var saved := LoadEvents(store);
      !(|saved| > 0 && saved[0] == e) ==> r == CacheInjectedEvent(store, e)
  {
    var saved := LoadEvents(store);
    if !Unreadable(store) && |saved| > 0 && saved[0] == e then
      store[EventsKey := EventList(saved[..Min(|saved|, CacheLimit)])]
    else
      CacheInjectedEvent(store, e)
  }

  /** One injection with the corrected cache write. */
  function InjectOnce(store: Store, events: seq<Event>, e: Event): (r: Store)
    // the cache is the first 20 events of the view's list
    ensures LoadEvents(r) == Reduce(events, EmergencyEvent(e))[..Min(|events| + 1, CacheLimit)]
    // a new event is cached exactly once, in front
    ensures e !in events ==>
      LoadEvents(r)[0] == e && forall i :: 1 <= i < |LoadEvents(r)| ==> LoadEvents(r)[i] != e
    ensures forall k :: k in store && k != EventsKey ==> k in r && r[k] == store[k]
  {
    var viewList := Reduce(events, EmergencyEvent(e));
    var r := CacheInjectedEventOnce(SaveEvents(store, viewList).0, e);
    assert LoadEvents(r) == viewList[..Min(|events| + 1, CacheLimit)];
    assert forall i :: 1 <= i < |LoadEvents(r)| ==> LoadEvents(r)[i] == events[i - 1];
    r
  }

  /** The view's state: the list on screen and the browser's storage. */
  class EventsListView {
    var events: seq<Event>
    var store: Store

    /** The cached copy under 'emergency_events' is the list on screen. */
    predicate Synced()
      reads this
    {
      EventsKey in store && store[EventsKey] == EventList(events)
    }

    /** Mounting: the cached list, or an empty one when nothing is cached or it does not parse. */
    constructor (saved: Store)
      ensures events == LoadEvents(saved) && store == saved
    {
      store := saved;
      if EventsKey in saved && saved[EventsKey].EventList? {
        events := saved[EventsKey].events;
      } else {
        events := [];
      }
    }

    /** The `socket.onmessage` handler. */
    method OnMessage(m: Message)
      modifies this
      ensures events == Reduce(old(events), m)
      ensures m.OtherMessage? ==> store == old(store)
      ensures !m.OtherMessage? ==> store == old(store)[EventsKey := EventList(events)]
      ensures !m.OtherMessage? || old(Synced()) ==> Synced()
    {
      match m
      case InitialEvents(list) =>
        events := list;
        store := store[EventsKey := EventList(list)];
      case EmergencyEvent(e) =>
        var updated := [e] + events;
        store := store[EventsKey := EventList(updated)];
        events := updated;
      case OtherMessage(_) =>
    }
  }

  // ---------------------------------------------------------------------------
  // getSeverityClass and the chip colour
  // ---------------------------------------------------------------------------

  /** `getSeverityClass(severity)`: a switch on the lower-cased severity. */
  function SeverityClass(severity: string): (c: string)
    ensures c in {"emergency-critical", "emergency-high", "emergency-medium", "emergency-low"}
    ensures c == "emergency-critical" <==> Lower(severity) == "критическая"
    ensures c == "emergency-high" <==> Lower(severity) == "высокая"
    ensures c == "emergency-medium" <==> Lower(severity) == "средняя"
    // every other text, unknown or empty, falls through to the low class
    ensures c == "emergency-low" <==> Lower(severity) !in {"критическая", "высокая", "средняя"}
  {
    var key := Lower(severity);
    if key == "критическая" then "emergency-critical"
    else if key == "высокая" then "emergency-high"
    else if key == "средняя" then "emergency-medium"
    else "emergency-low"
  }

  /** The class does not depend on letter case. */
  lemma {:induction false} SeverityClassIgnoresCase(severity: string)
    ensures SeverityClass(Lower(severity)) == SeverityClass(severity)
  {
    LowerIdempotent(severity);
  }

  /** The catalogue's four severities get the four classes. */
  lemma CatalogueSeverityClasses()
    ensures SeverityClass("Критическая") == "emergency-critical"
    ensures SeverityClass("Высокая") == "emergency-high"
    ensures SeverityClass("Средняя") == "emergency-medium"
    ensures SeverityClass("Низкая") == "emergency-low"
  {
    assert Lower("Критическая") == "критическая";
    assert Lower("Высокая") == "высокая";
    assert Lower("Средняя") == "средняя";
  }

  /** `SEVERITY_COLORS[severity] || 'default'`: an exact-match lookup. */
  function SeverityColor(severity: string): (c: string)
    ensures c in {"success", "warning", "error", "default"}
    // only the four severities exactly as the catalogue spells them get a colour
    ensures c != "default" <==> severity in SeverityLevels
    ensures c == "success" <==> severity == "Низкая"
    ensures c == "warning" <==> severity == "Средняя"
    ensures c == "error" <==> severity == "Высокая" || severity == "Критическая"
    // a coloured chip agrees with the row's class
    ensures c == "error" ==> SeverityClass(severity) in {"emergency-critical", "emergency-high"}
    ensures c == "warning" ==> SeverityClass(severity) == "emergency-medium"
    ensures c == "success" ==> SeverityClass(severity) == "emergency-low"
  {
    assert Lower("Критическая") == "критическая";
    assert Lower("Высокая") == "высокая";
    assert Lower("Средняя") == "средняя";
    assert Lower("Низкая") == "низкая";

    if severity == "Низкая" then "success"
    else if severity == "Средняя" then "warning"
    else if severity == "Высокая" || severity == "Критическая" then "error"
    else "default"
  }

  /** A severity written in capitals is styled as critical but its chip loses the error colour. */
  lemma ColorIsCaseSensitive()
    ensures SeverityClass("КРИТИЧЕСКАЯ") == "emergency-critical"
    ensures SeverityColor("КРИТИЧЕСКАЯ") == "default"
  {
    assert Lower("КРИТИЧЕСКАЯ") == "критическая";
  }
}
