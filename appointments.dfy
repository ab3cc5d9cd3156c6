/** The appointment calendar: the appointments of the selected day, the
    colour of each appointment type, the date-ordered list view, and the
    booking, viewing and cancelling handlers. The parent's callbacks are
    modelled as the events the calendar emits, in order. */
module Appointments {
  import opened Common

  datatype Appointment = Appointment(
    id: string,
    title: string,
    date: Date,
    time: string,
    apptType: string,
    petName: string,
    provider: string,
    notes: Option<string>)

  /** The booking form's fields; it is also what a booking hands to the
      parent (an appointment without id). */
  datatype AppointmentDraft = AppointmentDraft(
    title: string,
    date: Date,
    time: string,
    apptType: string,
    petName: string,
    provider: string,
    notes: string)

  /** A call the calendar makes to its parent. */
  datatype CalendarEvent = BookAppointment(request: AppointmentDraft) | Cancel(id: string)

  /** The booking form when empty; `today` stands for the current date. */
  function EmptyDraft(today: Date): AppointmentDraft
  {
    AppointmentDraft("", today, "", "", "", "", "")
  }

  /** Two dates fall on the same calendar day, whatever the time of day. */
  predicate SameCalendarDay(a: Date, b: Date)
  {
    a.day == b.day && a.month == b.month && a.year == b.year
  }

  function OnDay(d: Date): Appointment -> bool
  {
    (a: Appointment) => SameCalendarDay(a.date, d)
  }

  /** The calendar tab's list: nothing without a selected date, otherwise
      the appointments on that calendar day, in list order. */
  function AppointmentsOn(appointments: seq<Appointment>, selected: Option<Date>): (r: seq<Appointment>)
    ensures selected.None? ==> r == []
    ensures selected.Some? ==> forall i :: 0 <= i < |r| ==> SameCalendarDay(r[i].date, selected.value)
    ensures selected.Some? ==>
      forall i :: 0 <= i < |appointments| && SameCalendarDay(appointments[i].date, selected.value)
        ==> appointments[i] in r
    ensures selected.Some? ==> |r| == Count(appointments, OnDay(selected.value))
    ensures IsSubsequence(r, appointments)
  {
    match selected
    case None => []
    case Some(d) =>
      FilterIsSubsequence(appointments, OnDay(d));
      FilterKeepsMatches(appointments, OnDay(d));
      Filter(appointments, OnDay(d))
  }

  /** Only the calendar day of the selection matters, not its time. */
  lemma AppointmentsOnSameDay(appointments: seq<Appointment>, d1: Date, d2: Date)
    requires SameCalendarDay(d1, d2)
    ensures AppointmentsOn(appointments, Some(d1)) == AppointmentsOn(appointments, Some(d2))
  {
    SameDayFilter(appointments, d1, d2);
  }

  lemma {:induction false} SameDayFilter(appointments: seq<Appointment>, d1: Date, d2: Date)
    requires SameCalendarDay(d1, d2)
    ensures Filter(appointments, OnDay(d1)) == Filter(appointments, OnDay(d2))
  {
    if appointments != [] {
      SameDayFilter(appointments[1..], d1, d2);
    }
  }

  /** ASCII lower case of one character. */
  function LowerChar(c: char): (l: char)
    ensures 'A' <= c <= 'Z' ==> l as int == c as int + 32
    ensures !('A' <= c <= 'Z') ==> l == c
  {
    if 'A' <= c <= 'Z' then (c as int + 32) as char else c
  }

  /** The string in lower case, character by character. */
  function ToLower(s: string): (r: string)
    ensures |r| == |s|
    ensures forall i :: 0 <= i < |s| ==> r[i] == LowerChar(s[i])
  {
    if s == [] then [] else [LowerChar(s[0])] + ToLower(s[1..])
  }

  /** Lowering twice is lowering once. */
  lemma ToLowerIdempotent(s: string)
    ensures ToLower(ToLower(s)) == ToLower(s)
  {
    var once := ToLower(s);
    forall i | 0 <= i < |s| ensures ToLower(once)[i] == once[i] {
      assert !('A' <= once[i] <= 'Z');
    }
  }

  /** The colour bar of an appointment type, ignoring case. */
  function TypeColour(apptType: string): (colour: string)
    ensures colour == "bg-blue-500" <==> ToLower(apptType) == "veterinary"
    ensures colour == "bg-green-500" <==> ToLower(apptType) == "grooming"
    ensures colour == "bg-yellow-500" <==> ToLower(apptType) == "training"
    ensures colour == "bg-purple-500" <==> ToLower(apptType) == "boarding"
    ensures colour == "bg-gray-500" <==>
      ToLower(apptType) !in ["veterinary", "grooming", "training", "boarding"]
  {
    var key := ToLower(apptType);
    if key == "veterinary" then "bg-blue-500"
    else if key == "grooming" then "bg-green-500"
    else if key == "training" then "bg-yellow-500"
    else if key == "boarding" then "bg-purple-500"
    else "bg-gray-500"
  }

  /** Types that differ only in letter case get the same colour; in
      particular a type and its lower-case form do. */
  lemma TypeColourIgnoresCase(a: string, b: string)
    requires ToLower(a) == ToLower(b)
    ensures TypeColour(a) == TypeColour(b)
    ensures TypeColour(ToLower(a)) == TypeColour(a)
  {
    ToLowerIdempotent(a);
  }

  /** The four types the booking form offers get the four colours. */
  lemma VeterinaryIsBlue()
    ensures TypeColour("Veterinary") == "bg-blue-500"
  {
    LowerCapitalised("Veterinary", "veterinary");
  }

  lemma GroomingIsGreen()
    ensures TypeColour("Grooming") == "bg-green-500"
  {
    LowerCapitalised("Grooming", "grooming");
  }

  lemma TrainingIsYellow()
    ensures TypeColour("Training") == "bg-yellow-500"
  {
    LowerCapitalised("Training", "training");
  }

  lemma BoardingIsPurple()
    ensures TypeColour("Boarding") == "bg-purple-500"
  {
    LowerCapitalised("Boarding", "boarding");
  }

  /** A capitalised word of lower-case letters lowers to the word with its
      first letter lowered. */
  lemma LowerCapitalised(s: string, t: string)
    requires |s| == |t| && |s| > 0
    requires 'A' <= s[0] <= 'Z' && t[0] as int == s[0] as int + 32
    requires forall i :: 1 <= i < |s| ==> s[i] == t[i] && 'a' <= t[i] <= 'z'
    ensures ToLower(s) == t
  {
  }

  function Key(a: Appointment): int
  {
    a.date.timestamp
  }

  /** Ascending by timestamp. */
  ghost predicate SortedByTime(s: seq<Appointment>)
  {
    forall i, j :: 0 <= i < j < |s| ==> Key(s[i]) <= Key(s[j])
  }

  /** The list view's sort, which reorders the appointment array in place
      (insertion sort; ties keep their order). */
  method SortByTime(a: array<Appointment>)
    modifies a
    ensures SortedByTime(a[..])
    ensures multiset(a[..]) == multiset(old(a[..]))
  {
    var i := 0;
    while i < a.Length
      invariant 0 <= i <= a.Length
      invariant forall k, l :: 0 <= k < l < i ==> Key(a[k]) <= Key(a[l])
      invariant multiset(a[..]) == multiset(old(a[..]))
    {
      Insert(a, i);
      i := i + 1;
    }
  }

  /** Moves `a[i]` down into the sorted prefix `a[..i]`. */
  method Insert(a: array<Appointment>, i: int)
    requires 0 <= i < a.Length
    requires forall k, l :: 0 <= k < l < i ==> Key(a[k]) <= Key(a[l])
    modifies a
    ensures forall k, l :: 0 <= k < l <= i ==> Key(a[k]) <= Key(a[l])
    ensures multiset(a[..]) == multiset(old(a[..]))
  {
    var j := i;
    while 0 < j && Key(a[j]) < Key(a[j - 1])
      invariant 0 <= j <= i
      invariant forall k, l :: 0 <= k < l <= i && l != j ==> Key(a[k]) <= Key(a[l])
      invariant 0 < j < i ==> Key(a[j - 1]) <= Key(a[j + 1])
      invariant multiset(a[..]) == multiset(old(a[..]))
    {
      SwapDown(a, j);
      j := j - 1;
    }
  }

  /** Exchanges `a[j - 1]` and `a[j]`. */
  method SwapDown(a: array<Appointment>, j: int)
    requires 0 < j < a.Length
    modifies a
    ensures a[j - 1] == old(a[j]) && a[j] == old(a[j - 1])
    ensures forall k :: 0 <= k < a.Length && k != j - 1 && k != j ==> a[k] == old(a[k])
    ensures multiset(a[..]) == multiset(old(a[..]))
  {
    a[j - 1], a[j] := a[j], a[j - 1];
  }

  /** The appointment calendar's state. `appointments` is the `appointments`
      prop, or the default list when no prop is given; the list view sorts
      it in place. */
  class AppointmentCalendar {
    const appointments: array<Appointment>
    var date: Option<Date>
    var selectedAppointment: Option<Appointment>
    var isBookingOpen: bool
    var isViewOpen: bool
    var newAppointment: AppointmentDraft
    var events: seq<CalendarEvent>

    /** The calendar as it mounts; `today` stands for the current date. */
    constructor (appointments: array<Appointment>, today: Date)
      ensures this.appointments == appointments
      ensures date == Some(today) && selectedAppointment == None
      ensures !isBookingOpen && !isViewOpen
      ensures newAppointment == EmptyDraft(today) && events == []
    {
      this.appointments := appointments;
      date := Some(today);
      selectedAppointment := None;
      isBookingOpen, isViewOpen := false, false;
      newAppointment := EmptyDraft(today);
      events := [];
    }

    /** The calendar tab's list for the selected date. */
    function AppointmentsForSelectedDate(): (r: seq<Appointment>)
      reads this, appointments
      ensures date.None? ==> r == []
      ensures date.Some? ==> forall i :: 0 <= i < |r| ==> SameCalendarDay(r[i].date, date.value)
      ensures date.Some? ==>
        forall i :: 0 <= i < appointments.Length && SameCalendarDay(appointments[i].date, date.value)
          ==> appointments[i] in r
      ensures date.Some? ==> |r| == Count(appointments[..], OnDay(date.value))
      ensures IsSubsequence(r, appointments[..])
    {
      AppointmentsOn(appointments[..], date)
    }

    /** "N appointments scheduled" under the day's list. */
    function ScheduledCount(): (n: nat)
      reads this, appointments
      ensures date.None? ==> n == 0
      ensures n <= appointments.Length
    {
      SubsequenceLength(AppointmentsForSelectedDate(), appointments[..]);
      |AppointmentsForSelectedDate()|
    }

    /** Picking a day in the calendar (or clearing the pick). */
    method SelectDate(d: Option<Date>)
      modifies this
      ensures date == d
      ensures selectedAppointment == old(selectedAppointment) && newAppointment == old(newAppointment)
      ensures isBookingOpen == old(isBookingOpen) && isViewOpen == old(isViewOpen)
      ensures events == old(events)
    {
      date := d;
    }

    /** "Book Appointment"/"New Appointment" opens the booking dialog. */
    method OpenBooking()
      modifies this
      ensures isBookingOpen
      ensures date == old(date) && selectedAppointment == old(selectedAppointment)
      ensures newAppointment == old(newAppointment) && isViewOpen == old(isViewOpen)
      ensures events == old(events)
    {
      isBookingOpen := true;
    }

    /** A change in the booking form: the draft becomes `d`. */
    method EditDraft(d: AppointmentDraft)
      modifies this
      ensures newAppointment == d
      ensures date == old(date) && selectedAppointment == old(selectedAppointment)
      ensures isBookingOpen == old(isBookingOpen) && isViewOpen == old(isViewOpen)
      ensures events == old(events)
    {
      newAppointment := d;
    }

    /** Submitting the booking form: hand the draft's seven fields to the
        parent, close the dialog and empty the form; `now` stands for the
        current date the emptied form starts from. */
    method BookingSubmit(now: Date)
      modifies this
      ensures events == old(events) + [BookAppointment(old(newAppointment))]
      ensures !isBookingOpen && newAppointment == EmptyDraft(now)
      ensures date == old(date) && selectedAppointment == old(selectedAppointment)
      ensures isViewOpen == old(isViewOpen)
    {
      events := events + [BookAppointment(newAppointment)];
      isBookingOpen := false;
      newAppointment := EmptyDraft(now);
    }

    /** Clicking an appointment shows it in the detail dialog. */
    method ViewAppointment(a: Appointment)
      modifies this
      ensures selectedAppointment == Some(a) && isViewOpen
      ensures date == old(date) && newAppointment == old(newAppointment)
      ensures isBookingOpen == old(isBookingOpen) && events == old(events)
    {
      selectedAppointment := Some(a);
      isViewOpen := true;
    }

    /** "Cancel Appointment": ask the parent to cancel the selection, close
        the dialog and clear the selection; without a selection, nothing. */
    method CancelAppointment()
      modifies this
      ensures old(selectedAppointment).None? ==> unchanged(this)
      ensures old(selectedAppointment).Some? ==>
        && events == old(events) + [Cancel(old(selectedAppointment).value.id)]
        && !isViewOpen && selectedAppointment == None
        && date == old(date) && newAppointment == old(newAppointment)
        && isBookingOpen == old(isBookingOpen)
    {
      if selectedAppointment.Some? {
        events := events + [Cancel(selectedAppointment.value.id)];
        isViewOpen := false;
        selectedAppointment := None;
      }
    }

    /** The list view: sorts the appointments in place by date and returns
        them in that order. */
    method ListView() returns (shown: seq<Appointment>)
      modifies appointments
      ensures shown == appointments[..]
      ensures SortedByTime(shown)
      ensures multiset(shown) == multiset(old(appointments[..]))
    {
      SortByTime(appointments);
      shown := appointments[..];
    }
  }
}
