/**
 * The timeline page's local state: the list of events with its append,
 * delete-by-id and sort-by-date updates, the new-event form, and the icon
 * and colour each event type is drawn with.
 */
module Timeline {
  import opened Wrappers
  import opened Seqs

  // ---------------------------------------------------------------------
  // Event types

  /** The icon of an event type; unknown types get a plain circle. */
  function EventTypeIcon(eventType: string): (icon: string)
    ensures icon == "bi-circle" <==> !KnownType(eventType)
  {
    match eventType
    case "task" => "bi-check-square"
    case "deadline" => "bi-calendar-event"
    case "milestone" => "bi-flag"
    case _ => "bi-circle"
  }

  /** The colour class of an event type; unknown types get the secondary colour. */
  function EventTypeClass(eventType: string): (style: string)
    ensures style == "bg-secondary" <==> !KnownType(eventType)
  {
    match eventType
    case "task" => "bg-primary"
    case "deadline" => "bg-danger"
    case "milestone" => "bg-success"
    case _ => "bg-secondary"
  }

  predicate KnownType(eventType: string)
  {
    eventType == "task" || eventType == "deadline" || eventType == "milestone"
  }

  /**
   * Both maps are total: each known type has an icon and a colour of its
   * own, and every other value falls back to the default of each, together.
   */
  lemma EventTypeStyles(t: string, u: string)
    ensures !KnownType(t) <==> EventTypeIcon(t) == "bi-circle"
    ensures !KnownType(t) <==> EventTypeClass(t) == "bg-secondary"
    ensures KnownType(t) && KnownType(u) && t != u ==>
      EventTypeIcon(t) != EventTypeIcon(u) && EventTypeClass(t) != EventTypeClass(u)
  {
  }

  // ---------------------------------------------------------------------
  // Events

  /** An event as the server returns it; dates are day numbers. */
  datatype Event = Event(id: int, title: string, description: string, date: int, eventType: string)

  /** The events whose id differs from `id`, in order. */
  function WithoutId(events: seq<Event>, id: int): (r: seq<Event>)
    ensures |r| <= |events|
    ensures forall k :: 0 <= k < |r| ==> r[k] in events && r[k].id != id
  {
    Filter(events, (e: Event) => e.id != id)
  }

  /**
   * Deleting by id removes every event with that id and nothing else, and
   * keeps the rest in their order.
   */
  lemma WithoutIdProps(events: seq<Event>, id: int)
    ensures var r := WithoutId(events, id);
      IsSubsequence(r, events) &&
      (forall e | e in r :: e.id != id) &&
      (forall e :: multiset(r)[e] == if e.id != id then multiset(events)[e] else 0)
  {
    var p := (e: Event) => e.id != id;
    FilterIsSubsequence(events, p);
    forall e
      ensures multiset(WithoutId(events, id))[e] == if e.id != id then multiset(events)[e] else 0
    {
      FilterCounts(events, p, e);
    }
  }

  /** Dates never decrease along the list. */
  predicate SortedByDate(s: seq<Event>)
  {
    forall k, l :: 0 <= k < l < |s| ==> s[k].date <= s[l].date
  }

  // ---------------------------------------------------------------------
  // The new-event form

  /** The form's fields when it is empty. */
  const EmptyForm: map<string, string> :=
    map["title" := "", "description" := "", "date" := "", "event_type" := "task"]

  /** The message key shown when an event cannot be added. */
  const AddEventFailed: string := "timeline.error.addEventFailed"

  /** The message key shown when an event cannot be deleted. */
  const DeleteEventFailed: string := "timeline.error.deleteEventFailed"

  class TimelinePage {
    var events: array<Event>
    var newEvent: map<string, string>
    var showAddEvent: bool
    var loading: bool
    var error: string

    constructor()
      ensures events.Length == 0 && newEvent == EmptyForm
      ensures !showAddEvent && loading && error == ""
    {
      events := new Event[0];
      newEvent := EmptyForm;
      showAddEvent := false;
      loading := true;
      error := "";
    }

    /** `handleInputChange`: sets the named field of the form and leaves the others. */
    method HandleInputChange(name: string, value: string)
      modifies this`newEvent
      ensures newEvent == old(newEvent)[name := value]
      ensures forall f | f != name :: (f in newEvent <==> f in old(newEvent))
      ensures forall f | f != name && f in newEvent :: newEvent[f] == old(newEvent)[f]
    {
      newEvent := newEvent[name := value];
    }

    /**
     * `handleAddEvent`, given what the server answered: on success the new
     * event goes at the end of a fresh list, the form is emptied and hidden;
     * on failure only the error is set.
     */
    method HandleAddEvent(response: Option<Event>)
      modifies this
      ensures !loading
      ensures response.Some? ==>
        fresh(events) && events[..] == old(events[..]) + [response.value] &&
        newEvent == EmptyForm && !showAddEvent && error == old(error)
      ensures response.None? ==>
        events == old(events) && events[..] == old(events[..]) &&
        newEvent == old(newEvent) && showAddEvent == old(showAddEvent) && error == AddEventFailed
    {
      loading := true;
      if response.Some? {
        var s := events[..] + [response.value];
        events := new Event[|s|](i requires 0 <= i < |s| => s[i]);
        newEvent := EmptyForm;
        showAddEvent := false;
      } else {
        error := AddEventFailed;
      }
      loading := false;
    }

    /**
     * `handleDeleteEvent`, given whether the user confirmed and whether the
     * server succeeded: a confirmed success keeps exactly the events with
     * another id; a refusal changes nothing; a failure only sets the error.
     */
    method HandleDeleteEvent(eventId: int, confirmed: bool, succeeded: bool)
      modifies this
      ensures !confirmed ==>
        events == old(events) && events[..] == old(events[..]) && loading == old(loading) && error == old(error)
      ensures confirmed ==> !loading
      ensures confirmed && succeeded ==>
        fresh(events) && events[..] == WithoutId(old(events[..]), eventId) && error == old(error)
      ensures confirmed && !succeeded ==>
        events == old(events) && events[..] == old(events[..]) && error == DeleteEventFailed
      ensures newEvent == old(newEvent) && showAddEvent == old(showAddEvent)
    {
      if !confirmed {
        return;
      }
      loading := true;
      if succeeded {
        var s := WithoutId(events[..], eventId);
        events := new Event[|s|](i requires 0 <= i < |s| => s[i]);
      } else {
        error := DeleteEventFailed;
      }
      loading := false;
    }

    /**
     * The sort the page applies before drawing the events: it reorders the
     * events array in place by date, earliest first.
     */
    method SortByDate()
      modifies events
      ensures SortedByDate(events[..])
      ensures multiset(events[..]) == multiset(old(events[..]))
    {
      var a := events;
      var i := 0;
      while i < a.Length
        invariant 0 <= i <= a.Length
        invariant SortedByDate(a[..i])
        invariant multiset(a[..]) == multiset(old(a[..]))
      {
        InsertLast(a, i);
        i := i + 1;
      }
      assert a[..a.Length] == a[..];
    }
  }

  /** Moves `a[i]` left past every later-dated event, so that `a[..i + 1]` is sorted. */
  method InsertLast(a: array<Event>, i: nat)
    requires i < a.Length && SortedByDate(a[..i])
    modifies a
    ensures SortedByDate(a[..i + 1])
    ensures multiset(a[..]) == multiset(old(a[..]))
  {
    var j := i;
    while j > 0 && a[j - 1].date > a[j].date
      invariant 0 <= j <= i
      invariant multiset(a[..]) == multiset(old(a[..]))
      invariant forall k, l :: 0 <= k < l <= i && k != j && l != j ==> a[k].date <= a[l].date
      invariant forall l :: j < l <= i ==> a[j].date <= a[l].date
    {
      Swap(a, j - 1, j);
      j := j - 1;
    }
  }

  /** Exchanges two neighbouring events. */
  method Swap(a: array<Event>, k: nat, l: nat)
    requires k < l < a.Length
    modifies a
    ensures a[..] == old(a[..])[k := old(a[l])][l := old(a[k])]
    ensures multiset(a[..]) == multiset(old(a[..]))
  {
    a[k], a[l] := a[l], a[k];
  }
}
