/** The rows of the backend tables the dashboard reads and writes, and the ways a call to the
    backend can end. Identifiers that are numbers in the database (sensors, readings,
    reports) are `int`; user ids are strings; notification ids are handed out by the
    in-memory table of module Backend. */
module Records {
  import opened Wrappers
  import opened Numbers

  /** How a call to the hosted backend ended: it answered, it returned an `error` object
      (the client library does not throw then), or it threw. */
  datatype Outcome = Answered | Failed(message: string) | Threw(message: string)

  /** The `i`-th of a list of scripted answers, or `default` past its end. */
  function At<T>(s: seq<T>, i: nat, default: T): T
  {
    if i < |s| then s[i] else default
  }

  /** A calendar date as the dashboard displays it (dd/MM/yyyy), in local time. */
  datatype Date = Date(day: nat, month: nat, year: nat)

  predicate ValidDate(d: Date)
  {
    1 <= d.day <= 31 && 1 <= d.month <= 12
  }

  /** A number that orders dates as the calendar does, standing for the time of the date's
      local midnight (`new Date(year, month - 1, day).getTime()`). */
  function DayNumber(d: Date): int
  {
    d.year * 372 + d.month * 31 + d.day
  }

  /** `a` comes before `b` in the calendar: by year, then month, then day. */
  predicate Earlier(a: Date, b: Date)
  {
    a.year < b.year || (a.year == b.year && (a.month < b.month || (a.month == b.month && a.day < b.day)))
  }

  /** On valid dates the day number follows the order of (year, month, day), and two dates
      have the same number only if they are the same date. */
  lemma DayNumberOrder(a: Date, b: Date)
    requires ValidDate(a) && ValidDate(b)
    ensures DayNumber(a) < DayNumber(b) <==> Earlier(a, b)
    ensures DayNumber(a) == DayNumber(b) <==> a == b
  {
    if a.year < b.year {
      assert a.year * 372 + 372 <= b.year * 372;
    } else if b.year < a.year {
      assert b.year * 372 + 372 <= a.year * 372;
    }
  }

  /** A `created_at` timestamp: milliseconds since the epoch, and the local calendar date
      it falls on. */
  datatype Moment = Moment(millis: int, date: Date)

  /** A row of table `sensors`; `location` and `last_reading` are nullable. */
  datatype Sensor = Sensor(
    id: int,
    userId: string,
    name: string,
    deviceId: string,
    status: string,
    location: Option<string>,
    lastReading: Option<Milli>)

  /** The sensor fields a reading query joins in (`sensors(name, location, status)`). */
  datatype SensorInfo = SensorInfo(name: string, location: string, status: string)

  /** A row of table `readings`, with the joined sensor when the query asked for it and
      the join found one. */
  datatype Reading = Reading(
    id: int,
    sensorId: int,
    level: Milli,
    createdAt: Moment,
    sensor: Option<SensorInfo>)

  /** A row of table `reports` (citizen flood reports); only the fields the dashboard
      aggregates. */
  datatype Report = Report(id: int, title: string, status: string)

  /** A row of table `notifications`. `kind` is the column `type`. */
  datatype Notification = Notification(
    id: nat,
    userId: string,
    title: string,
    message: string,
    kind: string,
    category: string,
    actionUrl: Option<string>,
    read: bool)

  /** A toast the page shows: title, description, and whether it is the destructive
      (error) variant. */
  datatype Toast = Toast(title: string, description: string, destructive: bool)

  /** The answer of one backend query: rows (possibly `null`), an error object, or an
      exception thrown by the client. */
  datatype Fetch<T> = Got(data: Option<seq<T>>) | Error(message: string) | Thrown
}
