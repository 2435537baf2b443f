/** The activity form (itineraries/forms.py): its date check against the
    trip's range, and `save`, which attaches the form's trip and writes the
    row only when asked to. */
module ActivityForms {
  import opened Wrappers
  import opened Trips

  /** A moment: its calendar day number and the seconds since midnight. */
  datatype DateTime = DateTime(day: int, secondOfDay: nat)

  /** `date_time.date()`: the calendar day, with the time of day dropped. */
  function DateOf(dt: DateTime): int
  {
    dt.day
  }

  /** The error's text; the trip's dates it goes on to quote are not rendered here. */
  const OutsideTrip: string := "Activity date must be within the trip's date range"

  /** `clean_date_time`: with a trip and a date-time both given, a day
      before the trip's start or after its end is refused; otherwise the
      value passes through. */
  function CleanDateTime(trip: Option<Trip>, dateTime: Option<DateTime>): (r: Result<Option<DateTime>, ValidationError>)
  {
    if trip.Some? && dateTime.Some? then
      var day := DateOf(dateTime.value);
      if day < trip.value.startDate || day > trip.value.endDate then
        Failure(ValidationError(OutsideTrip))
      else Success(dateTime)
    else Success(dateTime)
  }

  /** An activity is accepted exactly when its day is one of the trip's
      days, both ends included; with no trip or no date-time nothing is
      checked. */
  lemma CleanDateTimeSpec(trip: Option<Trip>, dateTime: Option<DateTime>)
    ensures CleanDateTime(trip, dateTime).Success? ==> CleanDateTime(trip, dateTime).value == dateTime
    ensures trip.None? || dateTime.None? ==> CleanDateTime(trip, dateTime).Success?
    ensures trip.Some? && dateTime.Some? ==>
      (CleanDateTime(trip, dateTime).Success? <==> dateTime.value.day in TripDays(trip.value))
  {
    if trip.Some? && dateTime.Some? {
      if trip.value.startDate <= trip.value.endDate {
        DaysBetweenMembers(trip.value.startDate, trip.value.endDate, dateTime.value.day);
      } else {
        InvertedTripRefusesAll(trip.value, dateTime.value);
      }
    }
  }

  /** A trip whose end is before its start (one the trip form would refuse,
      but the table can hold) has no days, and every activity date is refused. */
  lemma InvertedTripRefusesAll(trip: Trip, dateTime: DateTime)
    requires trip.endDate < trip.startDate
    ensures TripDays(trip) == []
    ensures CleanDateTime(Some(trip), Some(dateTime)) == Failure(ValidationError(OutsideTrip))
  {
  }

  /** Only the calendar day is compared: moving the time within the day
      does not change the verdict. */
  lemma TimeOfDayIgnored(trip: Option<Trip>, day: int, s1: nat, s2: nat)
    ensures CleanDateTime(trip, Some(DateTime(day, s1))).Success? ==
            CleanDateTime(trip, Some(DateTime(day, s2))).Success?
  {
  }

  /** The fields of an activity as a row of the table. */
  datatype ActivityRow = ActivityRow(
    trip: Option<Trip>,
    name: string,
    dateTime: DateTime,
    location: string,
    description: Option<string>,
    activityType: Option<string>)

  /** An Activity model instance, whose fields `save` assigns in place. */
  class Activity {
    const id: nat
    var trip: Option<Trip>
    var name: string
    var dateTime: DateTime
    var location: string
    var description: Option<string>
    var activityType: Option<string>

    constructor (id: nat, trip: Option<Trip>, name: string, dateTime: DateTime, location: string,
                 description: Option<string>, activityType: Option<string>)
      ensures this.id == id
      ensures Row() == ActivityRow(trip, name, dateTime, location, description, activityType)
    {
      this.id := id;
      this.trip := trip;
      this.name := name;
      this.dateTime := dateTime;
      this.location := location;
      this.description := description;
      this.activityType := activityType;
    }

    /** The values the instance would write. */
    function Row(): ActivityRow
      reads this
    {
      ActivityRow(trip, name, dateTime, location, description, activityType)
    }
  }

  /** The Activity table, keyed by primary key. */
  class ActivityTable {
    var rows: map<nat, ActivityRow>

    constructor ()
      ensures rows == map[]
    {
      rows := map[];
    }

    /** `instance.save()`: insert or overwrite the instance's row. */
    method SaveInstance(a: Activity)
      modifies this
      ensures rows == old(rows)[a.id := a.Row()]
    {
      rows := rows[a.id := a.Row()];
    }
  }

  /** An ActivityForm bound to its cleaned data, which `super().save(commit=False)`
      has already copied into `instance`; `trip` is the trip the view passed in. */
  class ActivityForm {
    const trip: Option<Trip>
    const instance: Activity

    constructor (trip: Option<Trip>, instance: Activity)
      ensures this.trip == trip && this.instance == instance
    {
      this.trip := trip;
      this.instance := instance;
    }

    /** `save(commit)`: the form's trip, when there is one, replaces the
        instance's; the row is written only when `commit` holds. Nothing else
        about the instance changes. */
    method Save(commit: bool, table: ActivityTable) returns (r: Activity)
      modifies instance, table
      ensures r == instance
      ensures instance.Row() == old(instance.Row()).(trip := if trip.Some? then trip else old(instance.trip))
      ensures commit ==> table.rows == old(table.rows)[instance.id := instance.Row()]
      ensures !commit ==> table.rows == old(table.rows)
    {
      if trip.Some? {
        instance.trip := trip;
      }
      if commit {
        table.SaveInstance(instance);
      }
      return instance;
    }
  }
}
