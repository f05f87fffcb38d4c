/** The dialog that opens on a day of the water-level table: that day's readings, their
    count, lowest and highest level and the spread between them, and the readings grouped
    by sensor, each group under the sensor of its first reading and listed by time. */
module WaterLevelDetailModal {
  import opened Wrappers
  import opened Text
  import opened Numbers
  import opened Records
  import opened Sequences
  import opened DayTable
  import WeeklyReportTemplate

  function DateOf(r: Reading): Date
  {
    r.createdAt.date
  }

  /** `dayReadings`: the readings whose local date is the chosen one, in order. */
  function DayReadings(rs: seq<Reading>, date: Date): seq<Reading>
  {
    Members(rs, DateOf, date)
  }

  /** The day's readings are exactly those of the chosen date, in their order. */
  lemma DayReadingsExact(rs: seq<Reading>, date: Date)
    ensures forall x :: x in DayReadings(rs, date) <==> x in rs && x.createdAt.date == date
    ensures IsSubsequence(DayReadings(rs, date), rs)
  {
    forall x ensures x in DayReadings(rs, date) <==> x in rs && x.createdAt.date == date {
      MembersExact(rs, DateOf, date, x);
    }
    MembersIsSubsequence(rs, DateOf, date);
  }

  /** The figures of the four cards (the average is floating-point and left out). */
  datatype DayStats = DayStats(count: nat, min: Milli, max: Milli, variation: Milli)

  /** `Math.min`/`Math.max` over the levels, 0 for a day without readings. */
  function Stats(day: seq<Reading>): DayStats
  {
    var ls := LevelsOf(day);
    var lo := MinOr0(ls);
    var hi := MaxOr0(ls);
    DayStats(|day|, lo, hi, hi - lo)
  }

  /** Without readings every figure is 0; otherwise the minimum and maximum are levels of
      the day that bound all the others, and the variation is their non-negative
      difference. */
  lemma StatsBounds(day: seq<Reading>)
    ensures var st := Stats(day);
            && st.count == |day|
            && (day == [] ==> st.min == 0 && st.max == 0 && st.variation == 0)
            && (day != [] ==>
                  && st.variation == st.max - st.min >= 0
                  && (exists i :: 0 <= i < |day| && day[i].level == st.min)
                  && (exists i :: 0 <= i < |day| && day[i].level == st.max)
                  && forall i :: 0 <= i < |day| ==> st.min <= day[i].level <= st.max)
  {
    var ls := LevelsOf(day);
    if day != [] {
      assert ls[0] == day[0].level;
      var a :| 0 <= a < |ls| && ls[a] == Stats(day).min;
      var b :| 0 <= b < |ls| && ls[b] == Stats(day).max;
      assert day[a].level == Stats(day).min && day[b].level == Stats(day).max;
    }
  }

  const NoLocation := "Localização não informada"

  /** The sensor shown for a group: the one joined to its first reading, or a stand-in
      named after the id. */
  function InfoOf(r: Reading): SensorInfo
  {
    r.sensor.GetOr(SensorInfo("Sensor " + IntToString(r.sensorId), NoLocation, "unknown"))
  }

  datatype SensorGroup = SensorGroup(sensorId: int, sensor: SensorInfo, readings: seq<Reading>)

  function SensorIdOf(r: Reading): int
  {
    r.sensorId
  }

  /** An integer key that JavaScript objects treat as an array index. */
  predicate IsIndex(k: int)
  {
    0 <= k < 0xFFFF_FFFF
  }

  predicate NotIndex(k: int)
  {
    !IsIndex(k)
  }

  function Identity(k: int): int
  {
    k
  }

  /** The order of `Object.entries` on an object built by inserting `ks`: array-index keys
      in ascending order, then the other keys in insertion order. */
  function EntryOrder(ks: seq<int>): (r: seq<int>)
    ensures multiset(r) == multiset(ks)
  {
    FilterPartition(ks, IsIndex, NotIndex);
    SortBy(Filter(ks, IsIndex), Identity) + Filter(ks, NotIndex)
  }

  /** The groups for the sensor ids `ids`, each id occurring in `day`. */
  function GroupsFor(day: seq<Reading>, ids: seq<int>): (gs: seq<SensorGroup>)
    requires forall id :: id in ids ==> id in Keys(day, SensorIdOf)
    ensures |gs| == |ids|
    ensures forall i :: 0 <= i < |ids| ==>
              && gs[i].sensorId == ids[i]
              && gs[i].readings == Members(day, SensorIdOf, ids[i]) != []
              && gs[i].sensor == InfoOf(gs[i].readings[0])
  {
    if ids == [] then []
    else
      MembersFirst(day, SensorIdOf, ids[0]);
      var ms := Members(day, SensorIdOf, ids[0]);
      [SensorGroup(ids[0], InfoOf(ms[0]), ms)] + GroupsFor(day, ids[1..])
  }

  /** `Object.entries(sensorGroups)`. */
  function SensorGroups(day: seq<Reading>): seq<SensorGroup>
  {
    var ks := Keys(day, SensorIdOf);
    assert forall id :: id in EntryOrder(ks) ==> id in ks by {
      forall id | id in EntryOrder(ks) ensures id in ks {
        assert id in multiset(EntryOrder(ks));
      }
    }
    GroupsFor(day, EntryOrder(ks))
  }

  /** One group per distinct sensor id of the day, so the "Sensores" card counts the
      distinct ids. */
  lemma GroupsPerSensor(day: seq<Reading>)
    ensures var gs := SensorGroups(day);
            && |gs| == |Keys(day, SensorIdOf)|
            && forall i, j :: 0 <= i < j < |gs| ==> gs[i].sensorId != gs[j].sensorId
  {
    var ks := Keys(day, SensorIdOf);
    KeysExact(day, SensorIdOf);
    DistinctPerm(ks, EntryOrder(ks));
  }

  /** The groups split the day by sensor: every reading is in the group of its id, and a
      group holds exactly the readings with its id, in their order. */
  lemma GroupsPartition(day: seq<Reading>)
    ensures var gs := SensorGroups(day);
            && (forall r :: r in day ==> exists i :: 0 <= i < |gs| && gs[i].sensorId == r.sensorId)
            && forall i :: 0 <= i < |gs| ==>
                 && IsSubsequence(gs[i].readings, day)
                 && forall r :: r in gs[i].readings <==> r in day && r.sensorId == gs[i].sensorId
  {
    var ks := Keys(day, SensorIdOf);
    var order := EntryOrder(ks);
    var gs := SensorGroups(day);
    KeysExact(day, SensorIdOf);
    forall r | r in day ensures exists i :: 0 <= i < |gs| && gs[i].sensorId == r.sensorId {
      var k :| 0 <= k < |day| && day[k] == r;
      assert SensorIdOf(day[k]) in ks;
      assert r.sensorId in multiset(order);
      var i :| 0 <= i < |order| && order[i] == r.sensorId;
    }
    forall i | 0 <= i < |gs|
      ensures IsSubsequence(gs[i].readings, day)
      ensures forall r :: r in gs[i].readings <==> r in day && r.sensorId == gs[i].sensorId
    {
      MembersIsSubsequence(day, SensorIdOf, gs[i].sensorId);
      forall r ensures r in gs[i].readings <==> r in day && r.sensorId == gs[i].sensorId {
        MembersExact(day, SensorIdOf, gs[i].sensorId, r);
      }
    }
  }

  /** The figures of a group's card: its readings are never empty, so its minimum and
      maximum are levels of readings of that sensor that bound all its other levels. */
  lemma GroupStats(day: seq<Reading>, i: nat)
    requires i < |SensorGroups(day)|
    ensures var g := SensorGroups(day)[i];
            var st := Stats(g.readings);
            && st.count >= 1
            && (exists k :: 0 <= k < |g.readings| && g.readings[k].level == st.min)
            && (exists k :: 0 <= k < |g.readings| && g.readings[k].level == st.max)
            && forall k :: 0 <= k < |g.readings| ==>
                 g.readings[k].sensorId == g.sensorId && st.min <= g.readings[k].level <= st.max
  {
    var g := SensorGroups(day)[i];
    GroupsPartition(day);
    StatsBounds(g.readings);
    forall k | 0 <= k < |g.readings| ensures g.readings[k].sensorId == g.sensorId {
      assert g.readings[k] in g.readings;
    }
  }

  /** The array-index keys fill the front of the entry order and the other keys the
      back. */
  lemma EntryOrderSplit(ks: seq<int>)
    ensures var n := |Filter(ks, IsIndex)|;
            var r := EntryOrder(ks);
            && (forall k :: 0 <= k < n ==> IsIndex(r[k]))
            && (forall k :: n <= k < |r| ==> NotIndex(r[k]))
  {
    var idx := SortBy(Filter(ks, IsIndex), Identity);
    var rest := Filter(ks, NotIndex);
    var r := EntryOrder(ks);
    forall k | 0 <= k < |idx| ensures IsIndex(r[k]) {
      assert r[k] == idx[k] && idx[k] in multiset(Filter(ks, IsIndex));
    }
    forall k | |idx| <= k < |r| ensures NotIndex(r[k]) {
      assert r[k] == rest[k - |idx|];
    }
  }

  /** The array-index keys at the front of the entry order of distinct keys are in
      strictly ascending order. */
  lemma EntryOrderFrontSorted(ks: seq<int>)
    requires Distinct(ks)
    ensures var r := EntryOrder(ks);
            forall i, j :: 0 <= i < j < |Filter(ks, IsIndex)| ==> r[i] < r[j]
  {
    var r := EntryOrder(ks);
    FrontNonDecreasing(ks);
    DistinctPerm(ks, r);
    StrictWhenDistinct(r, |Filter(ks, IsIndex)|);
  }

  lemma FrontNonDecreasing(ks: seq<int>)
    ensures var r := EntryOrder(ks);
            forall i, j :: 0 <= i < j < |Filter(ks, IsIndex)| ==> r[i] <= r[j]
  {
    var idx := SortBy(Filter(ks, IsIndex), Identity);
    var r := EntryOrder(ks);
    SortByAscending(Filter(ks, IsIndex), Identity);
    forall i, j | 0 <= i < j < |idx| ensures r[i] <= r[j] {
      assert r[i] == idx[i] && r[j] == idx[j];
      assert Identity(idx[i]) <= Identity(idx[j]);
    }
  }

  lemma StrictWhenDistinct(s: seq<int>, n: nat)
    requires n <= |s| && Distinct(s)
    requires forall i, j :: 0 <= i < j < n ==> s[i] <= s[j]
    ensures forall i, j :: 0 <= i < j < n ==> s[i] < s[j]
  {
  }

  lemma FrontAscending(r: seq<int>, n: nat)
    requires n <= |r|
    requires forall i, j :: 0 <= i < j < n ==> r[i] < r[j]
    requires forall k :: 0 <= k < n ==> IsIndex(r[k])
    requires forall k :: n <= k < |r| ==> NotIndex(r[k])
    ensures forall i, j :: 0 <= i < j < |r| && IsIndex(r[j]) ==> IsIndex(r[i]) && r[i] < r[j]
  {
  }

  /** In the entry order of distinct keys, array-index keys come first, in strictly
      ascending order. */
  lemma EntryOrderAscending(ks: seq<int>)
    requires Distinct(ks)
    ensures var r := EntryOrder(ks);
            forall i, j :: 0 <= i < j < |r| && IsIndex(r[j]) ==> IsIndex(r[i]) && r[i] < r[j]
  {
    EntryOrderFrontSorted(ks);
    EntryOrderSplit(ks);
    FrontAscending(EntryOrder(ks), |Filter(ks, IsIndex)|);
  }

  /** Array-index ids come first, in ascending order. */
  lemma GroupsAscending(day: seq<Reading>)
    ensures var gs := SensorGroups(day);
            forall i, j :: 0 <= i < j < |gs| && IsIndex(gs[j].sensorId) ==>
              IsIndex(gs[i].sensorId) && gs[i].sensorId < gs[j].sensorId
  {
    KeysExact(day, SensorIdOf);
    EntryOrderAscending(Keys(day, SensorIdOf));
  }

  /** A group shows the sensor joined to the first reading of the day with its id, or,
      when that reading has none, "Sensor <id>", "Localização não informada" and
      "unknown". */
  lemma GroupSensor(day: seq<Reading>, i: nat)
    requires i < |SensorGroups(day)|
    ensures var g := SensorGroups(day)[i];
            exists m :: 0 <= m < |day| && day[m].sensorId == g.sensorId
              && (forall j :: 0 <= j < m ==> day[j].sensorId != g.sensorId)
              && g.sensor == if day[m].sensor.Some? then day[m].sensor.value
                             else SensorInfo("Sensor " + IntToString(g.sensorId), NoLocation, "unknown")
  {
    var g := SensorGroups(day)[i];
    var ks := Keys(day, SensorIdOf);
    assert g.sensorId in multiset(EntryOrder(ks));
    MembersFirst(day, SensorIdOf, g.sensorId);
  }

  function Millis(r: Reading): int
  {
    r.createdAt.millis
  }

  /** The list under a group: its readings sorted by time (`Array.prototype.sort`, in
      place, with the comparator on `getTime()`). */
  function DisplayOrder(g: SensorGroup): seq<Reading>
  {
    SortBy(g.readings, Millis)
  }

  /** A group's list holds its readings, each once, earliest first. */
  lemma DisplayAscending(g: SensorGroup)
    ensures multiset(DisplayOrder(g)) == multiset(g.readings)
    ensures forall i, j :: 0 <= i < j < |DisplayOrder(g)| ==>
              DisplayOrder(g)[i].createdAt.millis <= DisplayOrder(g)[j].createdAt.millis
  {
    SortByAscending(g.readings, Millis);
  }

  /** The badge of a group: "Ativo", "Manutenção" or "Inativo", as in the weekly report. */
  function BadgeLabel(g: SensorGroup): string
  {
    WeeklyReportTemplate.StatusLabel(g.sensor.status)
  }

  /** The groups as the page builds them from the object the grouping loop fills. */
  function GroupsFromMap(ids: seq<int>, groups: map<int, seq<Reading>>): seq<SensorGroup>
    requires forall i :: 0 <= i < |ids| ==> ids[i] in groups && groups[ids[i]] != []
  {
    if ids == [] then []
    else
      var g := groups[ids[0]];
      [SensorGroup(ids[0], InfoOf(g[0]), g)] + GroupsFromMap(ids[1..], groups)
  }

  lemma {:induction false} FromMapIsFor(day: seq<Reading>, ids: seq<int>, groups: map<int, seq<Reading>>)
    requires forall id :: id in ids ==> id in Keys(day, SensorIdOf)
    requires forall i :: 0 <= i < |ids| ==>
               ids[i] in groups && groups[ids[i]] == Members(day, SensorIdOf, ids[i]) != []
    ensures GroupsFromMap(ids, groups) == GroupsFor(day, ids)
    decreases ids
  {
    if ids != [] {
      FromMapIsFor(day, ids[1..], groups);
    }
  }

  /** Built from the grouping loop's object, the groups are the specified ones. */
  lemma GroupsFromMapAgree(day: seq<Reading>, groups: map<int, seq<Reading>>)
    requires forall k :: k in groups <==> k in Keys(day, SensorIdOf)
    requires forall k :: k in groups ==> groups[k] == Members(day, SensorIdOf, k)
    ensures var ids := EntryOrder(Keys(day, SensorIdOf));
            && (forall i :: 0 <= i < |ids| ==> ids[i] in groups && groups[ids[i]] != [])
            && GroupsFromMap(ids, groups) == SensorGroups(day)
  {
    var ids := EntryOrder(Keys(day, SensorIdOf));
    forall id | id in ids ensures id in Keys(day, SensorIdOf) && id in groups && groups[id] != [] {
      assert id in multiset(ids);
      MembersFirst(day, SensorIdOf, id);
    }
    FromMapIsFor(day, ids, groups);
  }

  /** The grouping loop (`dayReadings.reduce`), then `Object.entries`. */
  method GroupBySensor(day: seq<Reading>) returns (gs: seq<SensorGroup>)
    ensures gs == SensorGroups(day)
  {
    var order, groups := GroupBy(day, SensorIdOf);
    GroupsFromMapAgree(day, groups);
    gs := GroupsFromMap(EntryOrder(order), groups);
  }
}
