/** The dashboard's front page: it loads the sensors, then the latest readings and reports,
    counts sensors and reports by status, lists the sensors that have readings, and shows the
    five most recent reports. */
module DashboardOverview {
  import opened Wrappers
  import opened Records
  import opened Sequences

  // ---------------------------------------------------------------------------------------
  // Loading

  /** The tables the page queries. */
  datatype Table = SensorsTable | ReadingsTable | ReportsTable

  const NetworkMessage := "Failed to connect to the database. Please check your network connection and try again."
  const UnexpectedMessage := "An unexpected error occurred. Please try again later."
  const SensorErrorPrefix := "Error fetching sensors: "

  /** The page's loading step. `clientOk` says whether creating the server client succeeded;
      the three `Fetch` values are what each query answers when it is issued. `queries` lists
      the queries issued, in order. */
  method Load(clientOk: bool, sensorFetch: Fetch<Sensor>, readingFetch: Fetch<Reading>,
              reportFetch: Fetch<Report>)
    returns (sensors: seq<Sensor>, readings: seq<Reading>, reports: seq<Report>,
             fetchError: Option<string>, connectionError: bool, queries: seq<Table>)
    ensures queries == [SensorsTable] + (if ReadingsTable in queries then [ReadingsTable] else [])
                       + (if ReportsTable in queries then [ReportsTable] else [])
              || queries == []
    ensures (SensorsTable in queries) == clientOk
    ensures (ReadingsTable in queries) == (clientOk && sensorFetch.Got?)
    ensures (ReportsTable in queries) == (clientOk && sensorFetch.Got? && !readingFetch.Thrown?)
    ensures sensors == if clientOk && sensorFetch.Got? then sensorFetch.data.GetOr([]) else []
    ensures readings == if ReadingsTable in queries && readingFetch.Got?
                        then readingFetch.data.GetOr([]) else []
    ensures reports == if ReportsTable in queries && reportFetch.Got?
                       then reportFetch.data.GetOr([]) else []
    ensures fetchError == None
            <==> clientOk && sensorFetch.Got? && !readingFetch.Thrown? && !reportFetch.Thrown?
    ensures connectionError <==>
              clientOk && (sensorFetch.Thrown? || (sensorFetch.Got? && (readingFetch.Thrown? || reportFetch.Thrown?)))
    ensures connectionError ==> fetchError == Some(NetworkMessage)
    ensures !clientOk ==> fetchError == Some(UnexpectedMessage)
    ensures clientOk && sensorFetch.Error? ==>
              fetchError == Some(SensorErrorPrefix + sensorFetch.message)
  {
    sensors, readings, reports := [], [], [];
    fetchError, connectionError := None, false;
    queries := [];
    if !clientOk {
      fetchError := Some(UnexpectedMessage);
      return;
    }
    queries := queries + [SensorsTable];
    match sensorFetch
    case Thrown =>
      connectionError := true;
      fetchError := Some(NetworkMessage);
    case Error(message) =>
      fetchError := Some(SensorErrorPrefix + message);
    case Got(sensorData) =>
      sensors := sensorData.GetOr([]);
      queries := queries + [ReadingsTable];
      if readingFetch.Thrown? {
        connectionError := true;
        fetchError := Some(NetworkMessage);
        return;
      }
      if readingFetch.Got? {
        readings := readingFetch.data.GetOr([]);
      }
      queries := queries + [ReportsTable];
      if reportFetch.Thrown? {
        connectionError := true;
        fetchError := Some(NetworkMessage);
        return;
      }
      if reportFetch.Got? {
        reports := reportFetch.data.GetOr([]);
      }
  }

  // ---------------------------------------------------------------------------------------
  // Counts by status

  const Active := "active"
  const Inactive := "inactive"
  const Maintenance := "maintenance"
  const Open := "open"
  const Progress := "progress"
  const Closed := "closed"

  /** `xs.filter(x => status(x) === v).length`. */
  function CountStatus<T>(xs: seq<T>, status: T -> string, v: string): (n: nat)
    ensures n <= |xs|
    ensures n == 0 <==> forall i :: 0 <= i < |xs| ==> status(xs[i]) != v
    ensures n == |xs| <==> forall i :: 0 <= i < |xs| ==> status(xs[i]) == v
    decreases |xs|
  {
    if xs == [] then 0
    else CountStatus(xs[..|xs| - 1], status, v) + (if status(xs[|xs| - 1]) == v then 1 else 0)
  }

  /** The three counts added up: one step per element with one of the three statuses. */
  function InThree<T>(xs: seq<T>, status: T -> string, a: string, b: string, c: string): nat
    decreases |xs|
  {
    if xs == [] then 0
    else
      var last := status(xs[|xs| - 1]);
      InThree(xs[..|xs| - 1], status, a, b, c) + (if last == a || last == b || last == c then 1 else 0)
  }

  lemma {:induction false} InThreeSum<T>(xs: seq<T>, status: T -> string, a: string, b: string, c: string)
    requires a != b && a != c && b != c
    ensures InThree(xs, status, a, b, c)
            == CountStatus(xs, status, a) + CountStatus(xs, status, b) + CountStatus(xs, status, c)
    decreases |xs|
  {
    if xs != [] {
      InThreeSum(xs[..|xs| - 1], status, a, b, c);
    }
  }

  lemma {:induction false} InThreeAll<T>(xs: seq<T>, status: T -> string, a: string, b: string, c: string)
    ensures InThree(xs, status, a, b, c) <= |xs|
    ensures InThree(xs, status, a, b, c) == |xs|
            <==> forall i :: 0 <= i < |xs| ==> status(xs[i]) == a || status(xs[i]) == b || status(xs[i]) == c
    decreases |xs|
  {
    if xs != [] {
      var init := xs[..|xs| - 1];
      InThreeAll(init, status, a, b, c);
      assert forall i :: 0 <= i < |init| ==> init[i] == xs[i];
    }
  }

  /** Counts for three different statuses add up to at most the length, and to exactly the
      length iff every element has one of the three. */
  lemma ThreeCounts<T>(xs: seq<T>, status: T -> string, a: string, b: string, c: string)
    requires a != b && a != c && b != c
    ensures CountStatus(xs, status, a) + CountStatus(xs, status, b) + CountStatus(xs, status, c) <= |xs|
    ensures CountStatus(xs, status, a) + CountStatus(xs, status, b) + CountStatus(xs, status, c) == |xs|
            <==> forall i :: 0 <= i < |xs| ==> status(xs[i]) == a || status(xs[i]) == b || status(xs[i]) == c
  {
    InThreeSum(xs, status, a, b, c);
    InThreeAll(xs, status, a, b, c);
  }

  datatype SensorCounts = SensorCounts(active: nat, inactive: nat, maintenance: nat)
  datatype ReportCounts = ReportCounts(open: nat, progress: nat, closed: nat)

  function SensorStatus(s: Sensor): string { s.status }
  function ReportStatus(r: Report): string { r.status }

  /** The three sensor cards: exact status strings, so the counts cover every sensor only
      when no sensor has another status. */
  function CountSensors(sensors: seq<Sensor>): (c: SensorCounts)
    ensures c.active + c.inactive + c.maintenance <= |sensors|
    ensures c.active + c.inactive + c.maintenance == |sensors|
            <==> forall i :: 0 <= i < |sensors| ==>
                   sensors[i].status == Active || sensors[i].status == Inactive
                   || sensors[i].status == Maintenance
    ensures c.active == |sensors| <==> forall i :: 0 <= i < |sensors| ==> sensors[i].status == Active
  {
    ThreeCounts(sensors, SensorStatus, Active, Inactive, Maintenance);
    SensorCounts(CountStatus(sensors, SensorStatus, Active),
                 CountStatus(sensors, SensorStatus, Inactive),
                 CountStatus(sensors, SensorStatus, Maintenance))
  }

  /** The report card, counted the same way. */
  function CountReports(reports: seq<Report>): (c: ReportCounts)
    ensures c.open + c.progress + c.closed <= |reports|
    ensures c.open + c.progress + c.closed == |reports|
            <==> forall i :: 0 <= i < |reports| ==>
                   reports[i].status == Open || reports[i].status == Progress
                   || reports[i].status == Closed
    ensures c.open == 0 <==> forall i :: 0 <= i < |reports| ==> reports[i].status != Open
  {
    ThreeCounts(reports, ReportStatus, Open, Progress, Closed);
    ReportCounts(CountStatus(reports, ReportStatus, Open),
                 CountStatus(reports, ReportStatus, Progress),
                 CountStatus(reports, ReportStatus, Closed))
  }

  // ---------------------------------------------------------------------------------------
  // Sensors with readings

  /** An entry of `sensorsWithReadings`. */
  datatype SensorEntry = SensorEntry(id: int, name: string, location: string)

  function EntryOf(r: Reading): SensorEntry
    requires r.sensor.Some?
  {
    SensorEntry(r.sensorId, r.sensor.value.name, r.sensor.value.location)
  }

  /** `acc.find(s => s.id === id)` finds something. */
  predicate Listed(acc: seq<SensorEntry>, id: int)
  {
    exists k :: 0 <= k < |acc| && acc[k].id == id
  }

  /** A reading that came with its sensor's data, for sensor `id`. */
  predicate Joined(rs: seq<Reading>, id: int, i: int)
  {
    0 <= i < |rs| && rs[i].sensor.Some? && rs[i].sensorId == id
  }

  /** Reading `i` is the first joined reading of sensor `id`. */
  predicate FirstAt(rs: seq<Reading>, id: int, i: int)
  {
    Joined(rs, id, i) && forall j :: 0 <= j < i ==> !Joined(rs, id, j)
  }

  /** The list the reduce builds, defined from the end of the readings. */
  function WithReadings(rs: seq<Reading>): seq<SensorEntry>
    decreases |rs|
  {
    if rs == [] then []
    else
      var prev := WithReadings(rs[..|rs| - 1]);
      var r := rs[|rs| - 1];
      if r.sensor.Some? && !Listed(prev, r.sensorId) then prev + [EntryOf(r)] else prev
  }

  lemma JoinedPrefix(rs: seq<Reading>, id: int, i: int)
    requires rs != []
    ensures 0 <= i < |rs| - 1 ==> (Joined(rs[..|rs| - 1], id, i) <==> Joined(rs, id, i))
  {
  }

  /** A sensor is listed iff some reading came with its data. */
  lemma {:induction false} ListedIffJoined(rs: seq<Reading>, id: int)
    ensures Listed(WithReadings(rs), id) <==> exists i :: Joined(rs, id, i)
    decreases |rs|
  {
    if rs != [] {
      var init := rs[..|rs| - 1];
      ListedIffJoined(init, id);
      var prev := WithReadings(init);
      if exists i :: Joined(rs, id, i) {
        var i :| Joined(rs, id, i);
        if i < |rs| - 1 {
          assert Joined(init, id, i);
          var k :| 0 <= k < |prev| && prev[k].id == id;
          assert WithReadings(rs)[k] == prev[k];
        } else {
          var acc := WithReadings(rs);
          if !Listed(prev, id) {
            assert acc[|acc| - 1].id == id;
          } else {
            var k :| 0 <= k < |prev| && prev[k].id == id;
            assert acc[k] == prev[k];
          }
        }
      }
      if Listed(WithReadings(rs), id) {
        var acc := WithReadings(rs);
        var k :| 0 <= k < |acc| && acc[k].id == id;
        if k < |prev| {
          assert prev[k].id == id;
          var i :| Joined(init, id, i);
          assert Joined(rs, id, i);
        } else {
          assert Joined(rs, id, |rs| - 1);
        }
      }
    }
  }

  /** No sensor is listed twice. */
  predicate DistinctIds(acc: seq<SensorEntry>)
  {
    forall k, l :: 0 <= k < l < |acc| ==> acc[k].id != acc[l].id
  }

  lemma {:induction false} WithReadingsDistinct(rs: seq<Reading>)
    ensures DistinctIds(WithReadings(rs))
    decreases |rs|
  {
    if rs != [] {
      var prev := WithReadings(rs[..|rs| - 1]);
      WithReadingsDistinct(rs[..|rs| - 1]);
      var r := rs[|rs| - 1];
      var acc := WithReadings(rs);
      if r.sensor.Some? && !Listed(prev, r.sensorId) {
        forall k, l | 0 <= k < l < |acc| ensures acc[k].id != acc[l].id {
          assert acc[k] == prev[k];
          if l < |prev| {
            assert acc[l] == prev[l];
          } else {
            assert acc[l].id == r.sensorId;
          }
        }
      }
    }
  }

  /** Every entry holds the name and location of its sensor's first joined reading. */
  predicate FromFirstReadings(rs: seq<Reading>, acc: seq<SensorEntry>)
  {
    forall k :: 0 <= k < |acc| ==>
      exists i :: 0 <= i < |rs| && FirstAt(rs, acc[k].id, i) && acc[k] == EntryOf(rs[i])
  }

  lemma {:induction false} WithReadingsFirst(rs: seq<Reading>)
    ensures FromFirstReadings(rs, WithReadings(rs))
    decreases |rs|
  {
    if rs != [] {
      var init := rs[..|rs| - 1];
      var prev := WithReadings(init);
      var acc := WithReadings(rs);
      WithReadingsFirst(init);
      forall k | 0 <= k < |acc| ensures exists i :: FirstAt(rs, acc[k].id, i) && acc[k] == EntryOf(rs[i]) {
        if k < |prev| {
          assert acc[k] == prev[k];
          var i :| 0 <= i < |init| && FirstAt(init, prev[k].id, i) && prev[k] == EntryOf(init[i]);
          FirstAtExtend(rs, prev[k].id, i);
        } else {
          var id := rs[|rs| - 1].sensorId;
          ListedIffJoined(init, id);
          assert forall j :: 0 <= j < |rs| - 1 ==> !Joined(rs, id, j) by {
            forall j | 0 <= j < |rs| - 1 ensures !Joined(rs, id, j) {
              JoinedPrefix(rs, id, j);
            }
          }
          assert FirstAt(rs, acc[k].id, |rs| - 1);
        }
      }
    }
  }

  /** A sensor's first joined reading is its only first joined reading. */
  lemma FirstAtUnique(rs: seq<Reading>, id: int, i: int, j: int)
    requires FirstAt(rs, id, i) && FirstAt(rs, id, j)
    ensures i == j
  {
  }

  /** Entries come in order of their sensors' first joined readings. */
  predicate InFirstOrder(rs: seq<Reading>, acc: seq<SensorEntry>)
  {
    forall k, l, i, j ::
      (0 <= k < l < |acc| && 0 <= i < |rs| && 0 <= j < |rs|
       && FirstAt(rs, acc[k].id, i) && FirstAt(rs, acc[l].id, j)) ==> i < j
  }

  lemma {:induction false} WithReadingsOrder(rs: seq<Reading>)
    ensures InFirstOrder(rs, WithReadings(rs))
    decreases |rs|
  {
    if rs != [] {
      var init := rs[..|rs| - 1];
      var prev := WithReadings(init);
      var acc := WithReadings(rs);
      WithReadingsOrder(init);
      forall k, l, i, j | 0 <= k < l < |acc| && 0 <= i < |rs| && 0 <= j < |rs|
                          && FirstAt(rs, acc[k].id, i) && FirstAt(rs, acc[l].id, j)
        ensures i < j
      {
        if l < |prev| {
          FirstInPrefix(rs, acc[k].id, i);
          FirstInPrefix(rs, acc[l].id, j);
          assert acc[k] == prev[k] && acc[l] == prev[l];
        } else {
          assert acc[k] == prev[k];
          assert Listed(prev, acc[k].id);
          FirstInPrefix(rs, acc[k].id, i);
          assert acc[l] == EntryOf(rs[|rs| - 1]);
          NotListedIsLast(rs, j);
        }
      }
    }
  }

  /** The sensor of an entry the last reading adds has its first joined reading last. */
  lemma NotListedIsLast(rs: seq<Reading>, j: int)
    requires rs != [] && rs[|rs| - 1].sensor.Some?
    requires !Listed(WithReadings(rs[..|rs| - 1]), rs[|rs| - 1].sensorId)
    requires FirstAt(rs, rs[|rs| - 1].sensorId, j)
    ensures j == |rs| - 1
  {
    var id := rs[|rs| - 1].sensorId;
    ListedIffJoined(rs[..|rs| - 1], id);
    if j < |rs| - 1 {
      JoinedPrefix(rs, id, j);
    }
  }

  /** A first joined reading of the earlier readings stays first with one more reading. */
  lemma FirstAtExtend(rs: seq<Reading>, id: int, i: int)
    requires rs != [] && FirstAt(rs[..|rs| - 1], id, i)
    ensures FirstAt(rs, id, i)
  {
    forall j | 0 <= j < i ensures !Joined(rs, id, j) {
      JoinedPrefix(rs, id, j);
    }
  }

  /** A listed sensor of the earlier readings has its first joined reading among them. */
  lemma FirstInPrefix(rs: seq<Reading>, id: int, i: int)
    requires rs != [] && Listed(WithReadings(rs[..|rs| - 1]), id) && FirstAt(rs, id, i)
    ensures i < |rs| - 1 && FirstAt(rs[..|rs| - 1], id, i)
  {
    var init := rs[..|rs| - 1];
    ListedIffJoined(init, id);
    var i' :| Joined(init, id, i');
    assert Joined(rs, id, i');
    assert i <= i';
    JoinedPrefix(rs, id, i);
    forall j | 0 <= j < i ensures !Joined(init, id, j) {
      JoinedPrefix(rs, id, j);
    }
  }

  /** `sensorsWithReadings`: the reduce over the readings, pushing a sensor's entry the first
      time one of its readings comes with the sensor's data. */
  method SensorsWithReadings(rs: seq<Reading>) returns (acc: seq<SensorEntry>)
    ensures acc == WithReadings(rs)
  {
    acc := [];
    var i := 0;
    while i < |rs|
      invariant 0 <= i <= |rs|
      invariant acc == WithReadings(rs[..i])
    {
      var r := rs[i];
      assert rs[..i + 1][..i] == rs[..i];
      if r.sensor.Some? && !Listed(acc, r.sensorId) {
        acc := acc + [EntryOf(r)];
      }
      i := i + 1;
    }
    assert rs[..|rs|] == rs;
  }

  // ---------------------------------------------------------------------------------------
  // Recent activity

  const RecentCount := 5

  /** `reports.slice(0, 5)`: the first five reports as loaded (newest first). */
  function RecentReports(reports: seq<Report>): (r: seq<Report>)
    ensures |r| == if |reports| < RecentCount then |reports| else RecentCount
    ensures r == reports[..|r|]
  {
    Take(reports, RecentCount)
  }
}
