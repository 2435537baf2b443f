/** The trip record (trips/models.py) and the date check of its form
    (trips/forms.py). Calendar dates are day numbers. */
module Trips {
  import opened Wrappers

  /** A trip row; the image and the audit timestamps play no part here. */
  datatype Trip = Trip(id: nat, name: string, destination: string, startDate: int, endDate: int)

  /** `duration()`: the number of calendar days the trip spans, both ends included. */
  function Duration(t: Trip): int
  {
    (t.endDate - t.startDate) + 1
  }

  /** The calendar days from `lo` to `hi`, walked one day at a time. */
  function DaysBetween(lo: int, hi: int): seq<int>
    decreases hi - lo
  {
    if lo > hi then [] else [lo] + DaysBetween(lo + 1, hi)
  }

  /** The calendar days of the trip, from its start to its end. */
  function TripDays(t: Trip): seq<int>
  {
    DaysBetween(t.startDate, t.endDate)
  }

  /** The walk meets each day of the range exactly once, in order: it has
      `hi - lo + 1` entries, the `k`-th being `lo + k`. */
  lemma {:induction false} DaysBetweenSpec(lo: int, hi: int)
    requires lo <= hi + 1
    ensures |DaysBetween(lo, hi)| == hi - lo + 1
    ensures forall k :: 0 <= k < |DaysBetween(lo, hi)| ==> DaysBetween(lo, hi)[k] == lo + k
    decreases hi - lo
  {
    if lo <= hi {
      DaysBetweenSpec(lo + 1, hi);
    }
  }

  /** A day is one of the walk's days exactly when it lies in the range. */
  lemma DaysBetweenMembers(lo: int, hi: int, d: int)
    requires lo <= hi + 1
    ensures d in DaysBetween(lo, hi) <==> lo <= d <= hi
  {
    DaysBetweenSpec(lo, hi);
    if lo <= d <= hi {
      assert DaysBetween(lo, hi)[d - lo] == d;
    }
  }

  /** For a trip whose end is not before its start, the duration is the
      number of days it covers, and it is at least one. */
  lemma DurationCountsDays(t: Trip)
    requires t.startDate <= t.endDate
    ensures Duration(t) == |TripDays(t)|
    ensures Duration(t) >= 1
  {
    DaysBetweenSpec(t.startDate, t.endDate);
  }

  /** A one-day trip lasts one day, and moving both dates by the same number
      of days keeps the duration. */
  lemma DurationFacts(t: Trip, shift: int)
    ensures t.startDate == t.endDate ==> Duration(t) == 1
    ensures Duration(t.(startDate := t.startDate + shift, endDate := t.endDate + shift)) == Duration(t)
  {
  }

  /** The data of a submitted trip form; a date the user left empty is None. */
  datatype TripFormData = TripFormData(
    name: string,
    destination: string,
    startDate: Option<int>,
    endDate: Option<int>,
    description: Option<string>)

  /** The error `clean` raises. */
  datatype ValidationError = ValidationError(message: string)

  const EndBeforeStart: string := "End date cannot be before start date."

  /** `TripForm.clean`: the cleaned data unchanged, unless both dates are
      given and the end is before the start. */
  function CleanTripDates(data: TripFormData): (r: Result<TripFormData, ValidationError>)
  {
    if data.startDate.Some? && data.endDate.Some? && data.endDate.value < data.startDate.value then
      Failure(ValidationError(EndBeforeStart))
    else
      Success(data)
  }

  /** The form refuses exactly the inputs with both dates present and the end
      first; everything else passes through unchanged. */
  lemma CleanTripDatesSpec(data: TripFormData)
    ensures CleanTripDates(data).Failure? <==>
      data.startDate.Some? && data.endDate.Some? && data.endDate.value < data.startDate.value
    ensures CleanTripDates(data).Success? ==> CleanTripDates(data).value == data
    ensures CleanTripDates(data).Failure? ==> CleanTripDates(data).error.message == EndBeforeStart
  {
  }

  /** A trip made from accepted data covers at least one day: exactly the
      days from its start to its end. A same-day trip is accepted. */
  lemma AcceptedTripHasDays(data: TripFormData, id: nat)
    requires data.startDate.Some? && data.endDate.Some?
    requires CleanTripDates(data).Success?
    ensures var t := Trip(id, data.name, data.destination, data.startDate.value, data.endDate.value);
      Duration(t) >= 1 && Duration(t) == |TripDays(t)| &&
      data.startDate.value in TripDays(t) && data.endDate.value in TripDays(t)
    ensures data.startDate == data.endDate ==> CleanTripDates(data).Success?
  {
    var t := Trip(id, data.name, data.destination, data.startDate.value, data.endDate.value);
    DurationCountsDays(t);
    DaysBetweenMembers(t.startDate, t.endDate, t.startDate);
    DaysBetweenMembers(t.startDate, t.endDate, t.endDate);
  }
}
