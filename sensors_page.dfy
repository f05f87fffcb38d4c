/** The "Meus Sensores" page: it loads the user's sensors, filters them by a search term and
    lists them with a status badge and the last reading. */
module SensorsPage {
  import opened Wrappers
  import opened Numbers
  import opened Text
  import opened Records
  import opened Sequences

  // ---------------------------------------------------------------------------------------
  // Search

  /** The filter test: the lowered name, location (when there is one) or device id contains
      the lowered term. */
  predicate Matches(s: Sensor, term: string)
  {
    Contains(Lower(s.name), Lower(term))
    || (s.location.Some? && Contains(Lower(s.location.value), Lower(term)))
    || Contains(Lower(s.deviceId), Lower(term))
  }

  /** `filteredSensors`. */
  function Filtered(sensors: seq<Sensor>, term: string): seq<Sensor>
  {
    Filter(sensors, s => Matches(s, term))
  }

  /** A sensor is shown iff it matches, and the shown sensors keep the list's order. */
  lemma FilteredExact(sensors: seq<Sensor>, term: string, x: Sensor)
    ensures x in Filtered(sensors, term) <==> x in sensors && Matches(x, term)
    ensures IsSubsequence(Filtered(sensors, term), sensors)
  {
    FilterMembers(sensors, s => Matches(s, term), x);
    FilterIsSubsequence(sensors, s => Matches(s, term));
  }

  /** The empty term keeps every sensor. */
  lemma EmptyTermKeepsAll(sensors: seq<Sensor>)
    ensures Filtered(sensors, "") == sensors
  {
    forall s: Sensor ensures Matches(s, "") {
      ContainsEmpty(Lower(s.name));
    }
    FilterAll(sensors, s => Matches(s, ""));
  }

  /** A sensor is found by any part of its name, location or device id as written; a
      missing location only removes that one field from the test. */
  lemma FoundByAnyField(s: Sensor, term: string)
    ensures Contains(s.name, term) || Contains(s.deviceId, term) ==> Matches(s, term)
    ensures s.location.Some? && Contains(s.location.value, term) ==> Matches(s, term)
    ensures s.location.None? ==>
              (Matches(s, term) <==> Contains(Lower(s.name), Lower(term)) || Contains(Lower(s.deviceId), Lower(term)))
  {
    if Contains(s.name, term) {
      ContainsLowered(s.name, term);
    }
    if Contains(s.deviceId, term) {
      ContainsLowered(s.deviceId, term);
    }
    if s.location.Some? && Contains(s.location.value, term) {
      ContainsLowered(s.location.value, term);
    }
  }

  /** The case of the term does not matter: searching for its lowered form finds the same
      sensors. */
  lemma CaseInsensitive(sensors: seq<Sensor>, term: string)
    ensures Filtered(sensors, Lower(term)) == Filtered(sensors, term)
  {
    LowerIdempotent(term);
    FilterExt(sensors, s => Matches(s, Lower(term)), s => Matches(s, term));
  }

  // ---------------------------------------------------------------------------------------
  // Cells

  const Active := "active"
  const Inactive := "inactive"
  const Maintenance := "maintenance"

  /** `getStatusBadge`: the three known statuses in Portuguese, any other as it is. */
  function BadgeLabel(status: string): (badge: string)
    ensures status == Active ==> badge == "Ativo"
    ensures status == Inactive ==> badge == "Inativo"
    ensures status == Maintenance ==> badge == "Manutenção"
    ensures badge == status <==> status != Active && status != Inactive && status != Maintenance
  {
    if status == Active then "Ativo"
    else if status == Inactive then "Inativo"
    else if status == Maintenance then "Manutenção"
    else status
  }

  /** The last-reading cell: "Sem leituras", or the level (with the update time, which is not
      part of this model). */
  datatype ReadingCell = NoReadings | LastLevel(level: Milli)

  const NoReadingsText := "Sem leituras"

  function CellOf(lastReading: Option<Milli>): (cell: ReadingCell)
    ensures cell == NoReadings <==> lastReading == None
    ensures lastReading.Some? ==> cell == LastLevel(lastReading.value)
  {
    if lastReading.Some? then LastLevel(lastReading.value) else NoReadings
  }

  /** The text of the cell, without the time. */
  function CellText(cell: ReadingCell): string
  {
    match cell
    case NoReadings => NoReadingsText
    case LastLevel(level) => NumberText(level) + "m"
  }

  /** The cell reads "Sem leituras" only when there is no reading: every level, zero
      included, is shown with its unit. */
  lemma NoReadingsOnlyWithoutReading(cell: ReadingCell)
    ensures CellText(cell) == NoReadingsText <==> cell == NoReadings
  {
    if cell.LastLevel? {
      var t := CellText(cell);
      assert t[|t| - 1] == 'm';
      assert NoReadingsText[|NoReadingsText| - 1] == 's';
    }
  }

  const NoLocationText := "Não especificado"

  /** `sensor.location || "Não especificado"`: an empty location counts as none. */
  function LocationCell(location: Option<string>): (text: string)
    ensures text != ""
    ensures text == NoLocationText <==> location == None || location.value == "" || location.value == NoLocationText
  {
    if location.Some? && location.value != "" then location.value else NoLocationText
  }

  /** A row of the list. */
  datatype Row = Row(name: string, deviceId: string, location: string, badge: string, lastReading: ReadingCell)

  function RowOf(s: Sensor): Row
  {
    Row(s.name, s.deviceId, LocationCell(s.location), BadgeLabel(s.status), CellOf(s.lastReading))
  }

  const NoMatchText := "Nenhum sensor encontrado com os critérios de busca."
  const NoSensorsText := "Nenhum sensor encontrado. Adicione seu primeiro sensor clicando no botão 'Adicionar Sensor'."

  /** The body of the table: one message row when nothing is shown, else one row per
      shown sensor. */
  datatype Body = Message(text: string) | Rows(rows: seq<Row>)

  /** What the page shows. */
  datatype View = Loading | ErrorAlert(message: string) | Listing(count: nat, body: Body)

  /** `filteredSensors.map(...)`. */
  function RowsOf(shown: seq<Sensor>): (rows: seq<Row>)
    ensures |rows| == |shown|
    ensures forall i :: 0 <= i < |shown| ==> rows[i] == RowOf(shown[i])
  {
    seq(|shown|, i requires 0 <= i < |shown| => RowOf(shown[i]))
  }

  function BodyOf(shown: seq<Sensor>, term: string): (b: Body)
    ensures b.Message? <==> shown == []
    ensures b.Message? ==> (b.text == NoMatchText <==> term != "")
  {
    if shown == [] then Message(if term != "" then NoMatchText else NoSensorsText)
    else Rows(RowsOf(shown))
  }

  const SensorErrorPrefix := "Error fetching sensors: "
  const UnexpectedMessage := "An unexpected error occurred. Please try again later."

  /** The page's state. */
  class Page {
    var sensors: seq<Sensor>
    var fetchError: Option<string>
    var isLoading: bool
    var searchTerm: string

    constructor ()
      ensures sensors == [] && fetchError == None && isLoading && searchTerm == ""
    {
      sensors := [];
      fetchError := None;
      isLoading := true;
      searchTerm := "";
    }

    /** The search box. */
    method SetSearchTerm(term: string)
      modifies this
      ensures searchTerm == term
      ensures sensors == old(sensors) && fetchError == old(fetchError) && isLoading == old(isLoading)
    {
      searchTerm := term;
    }

    /** `fetchSensors` as written: a successful load replaces the sensors but leaves an
        earlier error in place. */
    method FetchSensorsAsWritten(fetch: Fetch<Sensor>)
      modifies this
      ensures !isLoading && searchTerm == old(searchTerm)
      ensures fetch.Got? ==> sensors == fetch.data.GetOr([]) && fetchError == old(fetchError)
      ensures fetch.Error? ==>
                sensors == old(sensors) && fetchError == Some(SensorErrorPrefix + fetch.message)
      ensures fetch.Thrown? ==> sensors == old(sensors) && fetchError == Some(UnexpectedMessage)
    {
      match fetch {
      case Got(data) =>
        sensors := data.GetOr([]);
      case Error(message) =>
        fetchError := Some(SensorErrorPrefix + message);
      case Thrown =>
        fetchError := Some(UnexpectedMessage);
      }
      isLoading := false;
    }

    /** `fetchSensors` with the error cleared by a successful load, so that the retry button
        of the error alert can bring the list back. */
    method FetchSensors(fetch: Fetch<Sensor>)
      modifies this
      ensures !isLoading && searchTerm == old(searchTerm)
      ensures fetch.Got? ==> sensors == fetch.data.GetOr([]) && fetchError == None
      ensures fetch.Error? ==>
                sensors == old(sensors) && fetchError == Some(SensorErrorPrefix + fetch.message)
      ensures fetch.Thrown? ==> sensors == old(sensors) && fetchError == Some(UnexpectedMessage)
    {
      match fetch {
      case Got(data) =>
        sensors := data.GetOr([]);
        fetchError := None;
      case Error(message) =>
        fetchError := Some(SensorErrorPrefix + message);
      case Thrown =>
        fetchError := Some(UnexpectedMessage);
      }
      isLoading := false;
    }

    /** What the page renders in its current state. */
    function View(): (v: View)
      reads this
      ensures v == Loading <==> isLoading
      ensures v.ErrorAlert? <==> !isLoading && fetchError.Some?
      ensures v.Listing? ==> v.count == |Filtered(sensors, searchTerm)|
                             && v.body == BodyOf(Filtered(sensors, searchTerm), searchTerm)
    {
      if isLoading then Loading
      else if fetchError.Some? then ErrorAlert(fetchError.value)
      else
        var shown := Filtered(sensors, searchTerm);
        Listing(|shown|, BodyOf(shown, searchTerm))
    }
  }

  /** A failed load followed by a successful retry, as written: the page still shows the
      error alert. */
  method RetryAfterErrorAsWritten(first: Fetch<Sensor>, retry: Fetch<Sensor>) returns (v: View)
    requires !first.Got? && retry.Got?
    ensures v.ErrorAlert?
  {
    var page := new Page();
    page.FetchSensorsAsWritten(first);
    page.FetchSensorsAsWritten(retry);
    v := page.View();
  }

  /** The same sequence with the corrected load: the retry brings the list back, holding
      every loaded sensor when the search box is empty. */
  method RetryAfterError(first: Fetch<Sensor>, retry: Fetch<Sensor>) returns (v: View)
    requires !first.Got? && retry.Got?
    ensures v.Listing? && v.count == |retry.data.GetOr([])|
  {
    var page := new Page();
    page.FetchSensors(first);
    page.FetchSensors(retry);
    EmptyTermKeepsAll(page.sensors);
    v := page.View();
  }
}
