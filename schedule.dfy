/** The production schedule page: its list of events, the form that adds
    one, the status badge colours and the date-ordered timeline, which is
    obtained by sorting the page's own array of events in place. */
module Schedule {

  datatype ScheduleItem = ScheduleItem(
    id: string,
    title: string,
    date: string,
    time: string,
    location: string,
    crew: seq<string>,
    notes: string,
    status: string)

  /** The add-event form. */
  datatype EventForm = EventForm(
    title: string,
    date: string,
    time: string,
    location: string,
    crew: seq<string>,
    notes: string,
    status: string)

  const MockEvents: seq<ScheduleItem> := [
    ScheduleItem("1", "Principal Photography - Day 1", "2024-03-15", "08:00", "Studio A",
                 ["Director", "DP", "Camera Op", "Sound Mixer"],
                 "First day of principal photography. All equipment checked.", "planned"),
    ScheduleItem("2", "Location Scouting", "2024-03-10", "10:00", "Downtown Area",
                 ["Location Manager", "DP", "Producer"], "Scouting for exterior shots", "completed"),
    ScheduleItem("3", "Casting Call", "2024-03-05", "14:00", "Casting Office",
                 ["Casting Director", "Director", "Producer"], "Final casting decisions", "completed")
  ]

  /** The form as it starts and as it is reset after an add. */
  const EmptyEventForm: EventForm := EventForm("", "", "", "", [], "", "planned")

  /** `getStatusColor`: green for completed, blue for in progress, gray for
      anything else. */
  function StatusColor(status: string): (classes: string)
    ensures status == "completed" ==> classes == "bg-green-100 text-green-800"
    ensures status == "in-progress" ==> classes == "bg-blue-100 text-blue-800"
    ensures status != "completed" && status != "in-progress" ==> classes == "bg-gray-100 text-gray-800"
  {
    if status == "completed" then "bg-green-100 text-green-800"
    else if status == "in-progress" then "bg-blue-100 text-blue-800"
    else "bg-gray-100 text-gray-800"
  }

  /** Title and date are required. */
  predicate ValidEvent(f: EventForm)
  {
    f.title != "" && f.date != ""
  }

  /** The event `handleSubmit` builds: the text fields are copied (missing
      ones are already empty), and an empty status becomes "planned". */
  function BuildEvent(f: EventForm, id: string): (e: ScheduleItem)
    ensures e.id == id && e.title == f.title && e.date == f.date
    ensures e.time == f.time && e.location == f.location && e.crew == f.crew && e.notes == f.notes
    ensures e.status == if f.status == "" then "planned" else f.status
    ensures e.status != ""
  {
    ScheduleItem(id, f.title, f.date, f.time, f.location, f.crew, f.notes,
                 if f.status == "" then "planned" else f.status)
  }

  // ---------------------------------------------------------------------
  // Date order

  /** Dates from the date input are `YYYY-MM-DD`, so comparing their
      timestamps is comparing the strings character by character. */
  predicate DateLe(a: string, b: string)
    decreases |a|
  {
    a == [] || (b != [] && (a[0] < b[0] || (a[0] == b[0] && DateLe(a[1..], b[1..]))))
  }

  lemma {:induction false} DateLeTotal(a: string, b: string)
    ensures DateLe(a, b) || DateLe(b, a)
    decreases |a|
  {
    if a != [] && b != [] && a[0] == b[0] {
      DateLeTotal(a[1..], b[1..]);
    }
  }

  lemma {:induction false} DateLeTransitive(a: string, b: string, c: string)
    requires DateLe(a, b) && DateLe(b, c)
    ensures DateLe(a, c)
    decreases |a|
  {
    if a != [] && b != [] && c != [] && a[0] == b[0] && b[0] == c[0] {
      DateLeTransitive(a[1..], b[1..], c[1..]);
    }
  }

  predicate SortedByDate(s: seq<ScheduleItem>)
  {
    forall k, l :: 0 <= k < l < |s| ==> DateLe(s[k].date, s[l].date)
  }

  /** Within `s[..i + 1]`, every pair avoiding position `j` is in order,
      and the element at `j` is no later than anything after it. */
  predicate InsertionState(s: seq<ScheduleItem>, i: int, j: int)
    requires 0 <= j <= i < |s|
  {
    && (forall k, l :: 0 <= k < l <= i && k != j && l != j ==> DateLe(s[k].date, s[l].date))
    && (forall l :: j < l <= i ==> DateLe(s[j].date, s[l].date))
  }

  /** Swapping the element at `j` with a later-dated predecessor moves the
      insertion one step down. */
  lemma SwapStep(s: seq<ScheduleItem>, i: int, j: int)
    requires 0 < j <= i < |s| && InsertionState(s, i, j)
    requires !DateLe(s[j - 1].date, s[j].date)
    ensures InsertionState(s[j - 1 := s[j]][j := s[j - 1]], i, j - 1)
  {
    DateLeTotal(s[j - 1].date, s[j].date);
    var t := s[j - 1 := s[j]][j := s[j - 1]];
    forall k, l | 0 <= k < l <= i && k != j - 1 && l != j - 1
      ensures DateLe(t[k].date, t[l].date)
    {
      if l == j {
        assert t[l] == s[j - 1] && t[k] == s[k];
      } else if k == j {
        assert t[k] == s[j - 1] && t[l] == s[l];
      } else {
        assert t[k] == s[k] && t[l] == s[l];
      }
    }
    forall l | j - 1 < l <= i
      ensures DateLe(t[j - 1].date, t[l].date)
    {
      if l == j {
        assert t[l] == s[j - 1];
      } else {
        assert t[l] == s[l];
      }
    }
  }

  /** When the insertion stops, the prefix is sorted. */
  lemma InsertionDone(s: seq<ScheduleItem>, i: int, j: int)
    requires 0 <= j <= i < |s| && InsertionState(s, i, j)
    requires j == 0 || DateLe(s[j - 1].date, s[j].date)
    ensures SortedByDate(s[..i + 1])
  {
    forall k, l | 0 <= k < l <= i
      ensures DateLe(s[k].date, s[l].date)
    {
      if l == j && k < j - 1 {
        DateLeTransitive(s[k].date, s[j - 1].date, s[j].date);
      }
    }
  }

  /** Moves `a[i]` down into the sorted prefix `a[..i]`. */
  method InsertIntoSorted(a: array<ScheduleItem>, i: int)
    requires 0 <= i < a.Length && SortedByDate(a[..i])
    modifies a
    ensures SortedByDate(a[..i + 1])
    ensures multiset(a[..]) == multiset(old(a[..]))
    ensures a[i + 1..] == old(a[i + 1..])
  {
    var j := i;
    while j > 0 && !DateLe(a[j - 1].date, a[j].date)
      invariant 0 <= j <= i
      invariant InsertionState(a[..], i, j)
      invariant multiset(a[..]) == multiset(old(a[..]))
      invariant a[i + 1..] == old(a[i + 1..])
    {
      ghost var before := a[..];
      SwapStep(before, i, j);
      a[j - 1], a[j] := a[j], a[j - 1];
      assert a[..] == before[j - 1 := before[j]][j := before[j - 1]];
      j := j - 1;
    }
    InsertionDone(a[..], i, j);
  }

  // ---------------------------------------------------------------------
  // The page

  /** The schedule page's state: the events, the form and whether the form
      is open. */
  class SchedulePage {
    var events: array<ScheduleItem>
    var form: EventForm
    var isAdding: bool

    /** The page starts with the three sample events. */
    constructor ()
      ensures events[..] == MockEvents && form == EmptyEventForm && !isAdding
      ensures fresh(events)
    {
      events := new ScheduleItem[3] [MockEvents[0], MockEvents[1], MockEvents[2]];
      form := EmptyEventForm;
      isAdding := false;
    }

    /** The "Add Event" button. */
    method StartAdding()
      modifies this
      ensures isAdding && form == old(form) && events == old(events)
    {
      isAdding := true;
    }

    /** The form's cancel button closes the form without resetting it. */
    method CancelAdding()
      modifies this
      ensures !isAdding && form == old(form) && events == old(events)
    {
      isAdding := false;
    }

    /** Typing into the form. */
    method SetForm(f: EventForm)
      modifies this
      ensures form == f && isAdding == old(isAdding) && events == old(events)
    {
      form := f;
    }

    /** `handleSubmit`. Without a title or date (the alert) nothing
        changes. Otherwise a new array holds the old events followed by the
        built event, and the form is reset and closed; the old array is
        left as it was. */
    method HandleSubmit(freshId: string)
      modifies this
      ensures !ValidEvent(old(form)) ==>
        events == old(events) && form == old(form) && isAdding == old(isAdding)
      ensures ValidEvent(old(form)) ==>
        fresh(events) && events[..] == old(events[..]) + [BuildEvent(old(form), freshId)]
        && form == EmptyEventForm && !isAdding
    {
      if !ValidEvent(form) {
        return;
      }
      var item := BuildEvent(form, freshId);
      var grown := new ScheduleItem[events.Length + 1](_ => item);
      forall i | 0 <= i < events.Length {
        grown[i] := events[i];
      }
      assert grown[..] == events[..] + [item];
      events := grown;
      form := EmptyEventForm;
      isAdding := false;
    }

    /** The timeline's `sort` by date: a stable insertion sort of the page's
        own array, in place. Afterwards the events are in ascending date
        order and are the same events as before. */
    method SortTimeline()
      modifies events
      ensures SortedByDate(events[..])
      ensures multiset(events[..]) == multiset(old(events[..]))
    {
      var a := events;
      var i := 0;
      while i < a.Length
        invariant 0 <= i <= a.Length
        invariant SortedByDate(a[..i])
        invariant multiset(a[..]) == multiset(old(a[..]))
      {
        InsertIntoSorted(a, i);
        i := i + 1;
      }
      assert a[..a.Length] == a[..];
    }
  }
}
