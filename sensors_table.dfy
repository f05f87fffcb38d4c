/** The sensors table component: a search-filtered list of sensors with a two-way status
    badge. Its search term starts empty and nothing ever changes it, so the filter keeps every
    sensor. */
module SensorsTable {
  import opened Wrappers
  import opened Numbers
  import opened Text
  import opened Sequences
  import SensorsPage

  /** The sensor shape the component's props declare: `location` is a string. */
  datatype TableSensor = TableSensor(
    id: int,
    name: string,
    location: string,
    status: string,
    lastReading: Option<Milli>)

  /** The filter test: the lowered name or location contains the lowered term. */
  predicate Matches(s: TableSensor, term: string)
  {
    Contains(Lower(s.name), Lower(term)) || Contains(Lower(s.location), Lower(term))
  }

  /** `filteredSensors` for a term. */
  function Filtered(sensors: seq<TableSensor>, term: string): seq<TableSensor>
  {
    Filter(sensors, s => Matches(s, term))
  }

  /** The component's search term: its initial state, which no handler updates. */
  const SearchTerm := ""

  /** The list the component renders. */
  function Shown(sensors: seq<TableSensor>): seq<TableSensor>
  {
    Filtered(sensors, SearchTerm)
  }

  /** A sensor passes the filter iff it matches, in the list's order. */
  lemma FilteredExact(sensors: seq<TableSensor>, term: string, x: TableSensor)
    ensures x in Filtered(sensors, term) <==> x in sensors && Matches(x, term)
    ensures IsSubsequence(Filtered(sensors, term), sensors)
  {
    FilterMembers(sensors, s => Matches(s, term), x);
    FilterIsSubsequence(sensors, s => Matches(s, term));
  }

  /** A sensor is found by any part of its name or location as written. */
  lemma FoundByNameOrLocation(s: TableSensor, term: string)
    ensures Contains(s.name, term) || Contains(s.location, term) ==> Matches(s, term)
  {
    if Contains(s.name, term) {
      ContainsLowered(s.name, term);
    }
    if Contains(s.location, term) {
      ContainsLowered(s.location, term);
    }
  }

  /** With the term always empty, the table shows exactly the sensors it is given. */
  lemma ShownIsAll(sensors: seq<TableSensor>)
    ensures Shown(sensors) == sensors
  {
    forall s: TableSensor ensures Matches(s, SearchTerm) {
      ContainsEmpty(Lower(s.name));
    }
    FilterAll(sensors, s => Matches(s, SearchTerm));
  }

  const Active := "active"

  /** The badge: "Ativo" for an active sensor, "Desativado" for every other status. */
  function StatusLabel(status: string): (badge: string)
    ensures badge == "Ativo" <==> status == Active
    ensures badge == "Desativado" <==> status != Active
  {
    if status == Active then "Ativo" else "Desativado"
  }

  /** The one status the two sensor lists label alike is "active": "inactive" and
      "maintenance" read "Desativado" here and "Inativo" and "Manutenção" on the sensors
      page. */
  lemma LabelsAgreeOnlyWhenActive(status: string)
    requires status == Active || status == SensorsPage.Inactive || status == SensorsPage.Maintenance
    ensures StatusLabel(status) == SensorsPage.BadgeLabel(status) <==> status == Active
  {
  }

  /** A row of the table. */
  datatype Row = Row(name: string, location: string, badge: string, lastReading: SensorsPage.ReadingCell)

  function RowOf(s: TableSensor): Row
  {
    Row(s.name, s.location, StatusLabel(s.status), SensorsPage.CellOf(s.lastReading))
  }

  const NoSensorsText := "Nenhum sensor encontrado."

  datatype Body = Message(text: string) | Rows(rows: seq<Row>)

  /** The table body: the single message row when the filtered list is empty, else one row
      per shown sensor in order. */
  function BodyOf(sensors: seq<TableSensor>): (b: Body)
    ensures b == Message(NoSensorsText) <==> sensors == []
    ensures b.Rows? ==> |b.rows| == |sensors| && forall i :: 0 <= i < |sensors| ==> b.rows[i] == RowOf(sensors[i])
  {
    ShownIsAll(sensors);
    var shown := Shown(sensors);
    if shown == [] then Message(NoSensorsText)
    else Rows(seq(|shown|, i requires 0 <= i < |shown| => RowOf(shown[i])))
  }
}
