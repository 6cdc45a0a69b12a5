/**
 * The dashboard's session state and its telemetry ingest step.
 *
 * Streamlit keeps `data`, `history` and `led_state` in a per-browser session
 * store and reruns the whole script on every refresh: each run fills in the
 * entries that are still absent, polls once, ingests the polled message, and
 * handles the two LED buttons. `Session` holds that store; a field is `None`
 * while its key is absent from the store.
 *
 * `data` always holds exactly the four sensor keys, so it is the record
 * `Readings`; `history` is a dictionary of five columns, keyed here by the
 * enumeration `ColumnKey`. `SensorName` and `ColumnName` give the Python key
 * strings. Decoded payloads keep string keys.
 */
module Dashboard {
  import opened Wrappers
  import opened JsonValue
  import opened History
  import opened LedCommand
  import opened Polling

  /** The four readings of `data`. */
  datatype Sensor = Temperature | Humidite | Pot | Ir

  /** The key of a reading in `data` and in a decoded payload. */
  function SensorName(s: Sensor): (name: string) {
    match s
    case Temperature => "temperature"
    case Humidite => "humidite"
    case Pot => "pot"
    case Ir => "ir"
  }

  /** The five history columns: the time label and one per reading. */
  datatype ColumnKey = Time | Reading(sensor: Sensor)

  /** The key of a column in `history`. */
  function ColumnName(c: ColumnKey): (name: string) {
    match c
    case Time => "time"
    case Reading(s) => SensorName(s)
  }

  /** The history columns in the dictionary's iteration order. */
  const ColumnOrder: seq<ColumnKey> :=
    [Time, Reading(Temperature), Reading(Humidite), Reading(Pot), Reading(Ir)]

  /** Distinct readings have distinct keys, so distinct columns do too. */
  lemma NamesDistinct(s: Sensor, t: Sensor, c: ColumnKey, d: ColumnKey)
    ensures SensorName(s) == SensorName(t) ==> s == t
    ensures ColumnName(c) == ColumnName(d) ==> c == d
  {
  }

  /** There are exactly five columns, and the iteration order visits each of them. */
  lemma ColumnCases(c: ColumnKey)
    ensures c == Time || c == Reading(Temperature) || c == Reading(Humidite) || c == Reading(Pot) || c == Reading(Ir)
    ensures c in ColumnOrder
  {
    match c
    case Time =>
    case Reading(s) =>
      match s
      case Temperature => assert ColumnOrder[1] == c;
      case Humidite => assert ColumnOrder[2] == c;
      case Pot => assert ColumnOrder[3] == c;
      case Ir => assert ColumnOrder[4] == c;
  }

  /** A map that has the five columns as keys has every column as a key. */
  lemma CoversColumns<V>(m: map<ColumnKey, V>)
    requires Time in m && Reading(Temperature) in m && Reading(Humidite) in m
    requires Reading(Pot) in m && Reading(Ir) in m
    ensures forall c: ColumnKey :: c in m
  {
    forall c: ColumnKey
      ensures c in m
    {
      ColumnCases(c);
    }
  }

  /** The value `payload.get(k, 0)` falls back to. */
  const Missing: Json := JInt(0)

  /** The value of `data`: one entry per sensor key. */
  datatype Readings = Readings(temperature: Json, humidite: Json, pot: Json, ir: Json) {
    /** `data[SensorName(s)]`. */
    function Of(s: Sensor): (reading: Json) {
      match s
      case Temperature => temperature
      case Humidite => humidite
      case Pot => pot
      case Ir => ir
    }

    /** The Python dictionary: exactly the four sensor keys, each with its reading. */
    function AsDict(): (d: map<string, Json>)
      ensures d.Keys == {"temperature", "humidite", "pot", "ir"}
      ensures forall s: Sensor :: SensorName(s) in d && d[SensorName(s)] == Of(s)
    {
      map["temperature" := temperature, "humidite" := humidite, "pot" := pot, "ir" := ir]
    }
  }

  /**
   * `data.update({...})` with the four extracted entries: every entry of the
   * old four-key dictionary is overwritten, so the result is the extracted
   * readings and nothing of the old value survives.
   */
  lemma UpdateOverwrites(current: Readings, fields: Readings)
    ensures current.AsDict() + fields.AsDict() == fields.AsDict()
  {
  }

  /** The `data` entry a new session starts with: every reading at 0. */
  function InitialData(): (d: Readings)
    ensures forall s: Sensor :: d.Of(s) == JInt(0)
  {
    Readings(JInt(0), JInt(0), JInt(0), JInt(0))
  }

  /** The `history` entry a new session starts with: five empty columns. */
  function InitialHistory(): (h: map<ColumnKey, seq<Json>>)
    ensures forall c: ColumnKey :: c in h && h[c] == []
  {
    var h := map[Time := [], Reading(Temperature) := [], Reading(Humidite) := [], Reading(Pot) := [], Reading(Ir) := []];
    CoversColumns(h);
    h
  }

  /**
   * The four readings taken from a decoded object: each sensor key's value
   * when present (whatever it is, `null` included), 0 when absent; every
   * other key of the payload is ignored.
   */
  function ExtractFields(payload: map<string, Json>): (r: Readings)
    ensures forall s: Sensor :: SensorName(s) in payload ==> r.Of(s) == payload[SensorName(s)]
    ensures forall s: Sensor :: SensorName(s) !in payload ==> r.Of(s) == Missing
  {
    Readings(
      Get(payload, "temperature", Missing),
      Get(payload, "humidite", Missing),
      Get(payload, "pot", Missing),
      Get(payload, "ir", Missing))
  }

  /** Two payloads that agree on the four sensor keys give the same readings. */
  lemma ExtractIgnoresOtherKeys(p: map<string, Json>, q: map<string, Json>)
    requires forall s: Sensor :: SensorName(s) in p <==> SensorName(s) in q
    requires forall s: Sensor :: SensorName(s) in p ==> p[SensorName(s)] == q[SensorName(s)]
    ensures ExtractFields(p) == ExtractFields(q)
  {
    var a, b := ExtractFields(p), ExtractFields(q);
    assert a.Of(Temperature) == b.Of(Temperature);
    assert a.Of(Humidite) == b.Of(Humidite);
    assert a.Of(Pot) == b.Of(Pot);
    assert a.Of(Ir) == b.Of(Ir);
  }

  /**
   * A worked payload: a present `null` stays `null`, absent keys read 0 and
   * an unknown key is dropped.
   */
  lemma ExtractExample()
    ensures ExtractFields(map["temperature" := JFloat(23.6), "humidite" := JNull, "seuil" := JInt(30)])
         == Readings(JFloat(23.6), JNull, JInt(0), JInt(0))
  {
  }

  /** One ingested message, as one row across the five history columns. */
  datatype Row = Row(time: string, readings: Readings)

  /** The entry of a row in a column; the time label is stored as a string. */
  function Cell(r: Row, c: ColumnKey): (cell: Json) {
    match c
    case Time => JString(r.time)
    case Reading(s) => r.readings.Of(s)
  }

  /** One column of a sequence of rows. */
  function Column(rows: seq<Row>, c: ColumnKey): (col: seq<Json>)
    ensures |col| == |rows|
    ensures forall i | 0 <= i < |rows| :: col[i] == Cell(rows[i], c)
  {
    seq(|rows|, i requires 0 <= i < |rows| => Cell(rows[i], c))
  }

  /** A column of a longer table extends the column of the shorter one. */
  lemma ColumnAppend(rows: seq<Row>, r: Row, c: ColumnKey)
    ensures Column(rows + [r], c) == Column(rows, c) + [Cell(r, c)]
  {
  }

  /** Dropping the oldest rows drops the same entries from every column. */
  lemma ColumnDrop(rows: seq<Row>, a: nat, c: ColumnKey)
    requires a <= |rows|
    ensures Column(rows[a..], c) == Column(rows, c)[a..]
  {
  }

  /**
   * Appending a row and cutting the table to its newest rows is the same as
   * pushing the row's cell onto each column: the columns are cut together.
   */
  lemma ColumnOfPush(rows: seq<Row>, r: Row, c: ColumnKey)
    ensures Column(Truncate(rows + [r]), c) == Push(Column(rows, c), Cell(r, c))
  {
  }

  /**
   * `history` holds exactly the five columns, and they are the projections
   * of one table of at most `MaxPoints` rows: equally long and aligned.
   */
  ghost predicate HistoryShape(h: map<ColumnKey, seq<Json>>, rows: seq<Row>) {
    && |rows| <= MaxPoints
    && forall c: ColumnKey :: c in h && h[c] == Column(rows, c)
  }

  /** The five columns have the same length, which is at most `MaxPoints`. */
  lemma ColumnsAligned(h: map<ColumnKey, seq<Json>>, rows: seq<Row>, c: ColumnKey, d: ColumnKey)
    requires HistoryShape(h, rows)
    ensures c in h && d in h && |h[c]| == |h[d]| <= MaxPoints
  {
  }

  /**
   * Pushing one row's cells onto the columns of a well-shaped history gives
   * the well-shaped history of the table with that row appended and cut.
   */
  lemma PushRow(h: map<ColumnKey, seq<Json>>, rows: seq<Row>, row: Row,
                appended: map<ColumnKey, seq<Json>>, h': map<ColumnKey, seq<Json>>)
    requires HistoryShape(h, rows)
    requires forall c: ColumnKey :: c in appended && appended[c] == h[c] + [Cell(row, c)]
    requires forall c: ColumnKey :: c in h' && h'[c] == Truncate(appended[c])
    ensures HistoryShape(h', Truncate(rows + [row]))
    ensures forall c: ColumnKey :: h'[c] == Push(h[c], Cell(row, c))
  {
    forall c: ColumnKey
      ensures h'[c] == Column(Truncate(rows + [row]), c)
    {
      ColumnOfPush(rows, row, c);
    }
  }

  /**
   * The loop `for k in hist: hist[k] = hist[k][-max_points:]`, visiting the
   * columns in the dictionary's order.
   */
  method TruncateColumns(hist: map<ColumnKey, seq<Json>>) returns (cut: map<ColumnKey, seq<Json>>)
    requires forall c: ColumnKey :: c in hist
    ensures forall c: ColumnKey :: c in cut && cut[c] == Truncate(hist[c])
  {
    cut := hist;
    var i := 0;
    while i < |ColumnOrder|
      invariant 0 <= i <= |ColumnOrder|
      invariant cut.Keys == hist.Keys
      invariant forall c | c in cut :: cut[c] == if c in ColumnOrder[..i] then Truncate(hist[c]) else hist[c]
    {
      var c := ColumnOrder[i];
      assert ColumnOrder[..i + 1] == ColumnOrder[..i] + [c];
      cut := cut[c := Truncate(cut[c])];
      i := i + 1;
    }
    forall c: ColumnKey
      ensures cut[c] == Truncate(hist[c])
    {
      ColumnCases(c);
      assert ColumnOrder[..i] == ColumnOrder;
    }
  }

  /**
   * The five appends of one ingest: the time label onto `time`, and each
   * just-updated reading of `d` onto its own column.
   */
  method AppendEntries(hist: map<ColumnKey, seq<Json>>, t: string, d: Readings)
    returns (appended: map<ColumnKey, seq<Json>>)
    requires forall c: ColumnKey :: c in hist
    ensures forall c: ColumnKey :: c in appended && appended[c] == hist[c] + [Cell(Row(t, d), c)]
  {
    appended := hist;
    appended := appended[Time := appended[Time] + [JString(t)]];
    appended := appended[Reading(Temperature) := appended[Reading(Temperature)] + [d.temperature]];
    appended := appended[Reading(Humidite) := appended[Reading(Humidite)] + [d.humidite]];
    appended := appended[Reading(Pot) := appended[Reading(Pot)] + [d.pot]];
    appended := appended[Reading(Ir) := appended[Reading(Ir)] + [d.ir]];
    forall c: ColumnKey
      ensures c in appended && appended[c] == hist[c] + [Cell(Row(t, d), c)]
    {
      ColumnCases(c);
    }
  }

  /** What one run does with the polled message. */
  datatype Outcome =
    | Skipped                             // nothing was polled, or the text was empty
    | Rejected(raw: string)               // not JSON, or JSON that is not an object: only a warning
    | Accepted(fields: Readings)           // the readings taken from the object

  /**
   * How the ingest step treats a polled message, given the decoder: a missing
   * or empty message is skipped; a message that does not decode to a JSON
   * object is rejected (`json.loads` raises, or `.get` raises on the
   * non-object); an object is accepted with its extracted readings.
   */
  function Classify(raw: Option<string>, loads: string -> Decoded): (o: Outcome)
    ensures o.Skipped? <==> raw.None? || raw.value == ""
    ensures o.Accepted? <==>
      raw.Some? && raw.value != "" && loads(raw.value).Parsed? && loads(raw.value).value.JObject?
    ensures o.Rejected? ==> raw.Some? && o.raw == raw.value
    ensures o.Accepted? ==> o.fields == ExtractFields(loads(raw.value).value.fields)
  {
    if raw.None? || raw.value == "" then Skipped
    else match loads(raw.value)
      case Parsed(JObject(payload)) => Accepted(ExtractFields(payload))
      case _ => Rejected(raw.value)
  }

  /** The session store of one browser session. */
  class Session {
    var data: Option<Readings>
    var history: Option<map<ColumnKey, seq<Json>>>
    var ledState: Option<int>
    /** The history as a table of rows, oldest first. */
    ghost var rows: seq<Row>

    ghost predicate Valid()
      reads this
    {
      && (history.Some? ==> HistoryShape(history.value, rows))
      && (history.None? ==> rows == [])
      // the newest history row holds the readings now in `data`
      && (rows != [] ==> data == Some(rows[|rows| - 1].readings))
      && (ledState.Some? ==> ledState.value == LedOff || ledState.value == LedOn)
    }

    /** All three keys are present in the store. */
    predicate Initialized()
      reads this
    {
      data.Some? && history.Some? && ledState.Some?
    }

    /** A new browser session, before the script has run in it. */
    constructor ()
      ensures Valid()
      ensures data.None? && history.None? && ledState.None? && rows == []
    {
      data, history, ledState := None, None, None;
      rows := [];
    }

    /** The start of every run: each entry is set only if it is absent. */
    method Initialize()
      requires Valid()
      modifies this
      ensures Valid() && Initialized()
      ensures data == if old(data).None? then Some(InitialData()) else old(data)
      ensures history == if old(history).None? then Some(InitialHistory()) else old(history)
      ensures ledState == if old(ledState).None? then Some(LedOff) else old(ledState)
      ensures rows == old(rows)
      ensures old(Initialized()) ==> data == old(data) && history == old(history) && ledState == old(ledState)
    {
      if data.None? {
        data := Some(InitialData());
      }
      if history.None? {
        history := Some(InitialHistory());
      }
      if ledState.None? {
        ledState := Some(LedOff);
      }
    }

    /**
     * The ingest step for the polled message `raw`, with the decoder `loads`
     * and the time label `t` taken when the message is accepted.
     */
    method Ingest(raw: Option<string>, loads: string -> Decoded, t: string) returns (outcome: Outcome)
      requires Valid() && Initialized()
      modifies this
      ensures Valid() && Initialized()
      ensures outcome == Classify(raw, loads)
      ensures ledState == old(ledState)
      ensures !outcome.Accepted? ==> data == old(data) && history == old(history) && rows == old(rows)
      ensures outcome.Accepted? ==>
        && data == Some(outcome.fields)
        && rows == Truncate(old(rows) + [Row(t, outcome.fields)])
        && history.value[Time] == Push(old(history.value[Time]), JString(t))
        && forall s: Sensor :: history.value[Reading(s)] == Push(old(history.value[Reading(s)]), outcome.fields.Of(s))
    {
      if raw.None? || raw.value == "" {
        return Skipped;
      }
      var decoded := loads(raw.value);
      if !(decoded.Parsed? && decoded.value.JObject?) {
        return Rejected(raw.value);
      }
      var fields := ExtractFields(decoded.value.fields);
      // `data.update(...)` overwrites all four entries
      UpdateOverwrites(data.value, fields);
      data := Some(fields);

      ghost var before := history.value;
      ghost var row := Row(t, data.value);
      var appended := AppendEntries(history.value, t, data.value);
      var hist := TruncateColumns(appended);
      history := Some(hist);

      PushRow(before, rows, row, appended, hist);
      forall s: Sensor
        ensures hist[Reading(s)] == Push(before[Reading(s)], fields.Of(s))
      {
        assert Cell(row, Reading(s)) == fields.Of(s);
      }
      TruncateKeepsNewest(rows + [row]);
      rows := Truncate(rows + [row]);
      outcome := Accepted(fields);
    }

    /**
     * One of the two LED buttons: the stored state becomes 1 (on) or 0 (off)
     * whether or not the command then reaches the broker.
     */
    method PressLed(on: bool, connected: bool) returns (published: Option<Json>)
      requires Valid() && Initialized()
      modifies this
      ensures Valid() && Initialized()
      ensures ledState == Some(if on then LedOn else LedOff)
      ensures data == old(data) && history == old(history) && rows == old(rows)
      ensures published == SendLedCommand(ledState.value, connected)
    {
      var state := if on then LedOn else LedOff;
      ledState := Some(state);
      published := SendLedCommand(state, connected);
    }
  }

  /** Which LED button, if any, was clicked during a run. */
  datatype Button = NoPress | PressOn | PressOff

  /**
   * One run of the script against a session: initialise, poll, ingest, then
   * the LED buttons. `delivered` is what `on_message` collected during the
   * poll and `status` says whether the poll's network block raised.
   * `drawn` says whether the page between the ingest and the buttons (the
   * gauges, which reject a reading that is not a number) was drawn without
   * raising; when it raised, the run ends there, after the ingest has already
   * been stored, and the buttons are never reached.
   */
  method Rerun(s: Session, status: PollStatus, delivered: seq<string>, loads: string -> Decoded,
               t: string, drawn: bool, button: Button, connected: bool)
    returns (outcome: Outcome, published: Option<Json>)
    requires s.Valid()
    modifies s
    ensures s.Valid() && s.Initialized()
    ensures outcome == Classify(PollResult(status, delivered), loads)
    ensures outcome.Accepted? ==> s.data == Some(outcome.fields)
    // the columns as initialisation leaves them: the stored ones, or five empty ones on a first run
    ensures var h0 := if old(s.history).None? then InitialHistory() else old(s.history).value;
      outcome.Accepted? ==> forall c: ColumnKey :: s.history.value[c] == Push(h0[c], Cell(Row(t, outcome.fields), c))
    ensures !outcome.Accepted? ==>
      && s.data == (if old(s.data).None? then Some(InitialData()) else old(s.data))
      && s.history == Some(if old(s.history).None? then InitialHistory() else old(s.history).value)
    ensures !drawn || button.NoPress? ==> published.None?
    ensures !drawn || button.NoPress? ==> s.ledState == if old(s.ledState).None? then Some(LedOff) else old(s.ledState)
    ensures drawn && button.PressOn? ==> s.ledState == Some(LedOn) && published == SendLedCommand(LedOn, connected)
    ensures drawn && button.PressOff? ==> s.ledState == Some(LedOff) && published == SendLedCommand(LedOff, connected)
  {
    s.Initialize();
    ghost var h0 := s.history.value;
    var raw := PollMqtt(status, delivered);
    outcome := s.Ingest(raw, loads, t);
    if outcome.Accepted? {
      forall c: ColumnKey
        ensures s.history.value[c] == Push(h0[c], Cell(Row(t, outcome.fields), c))
      {
        ColumnCases(c);
      }
    }
    published := None;
    if drawn {
      match button {
        case NoPress =>
        case PressOn => published := s.PressLed(true, connected);
        case PressOff => published := s.PressLed(false, connected);
      }
    }
  }
}
