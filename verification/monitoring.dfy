/** The hardware-sensor poller (`src/modules/monitoring.rs`): sensor configurations
    become WMI queries, query results become readings or error texts, and one timer
    tick publishes one event per configured sensor.

    The WMI connection is an oracle from query text to rows or an error, and the
    clock is a parameter. */
module Monitoring {
  import opened Results
  import opened EventBus
  import opened ModuleContext

  /** The two sensor types; `{:?}` prints the variant name. */
  datatype SensorType = Temperature | Load

  datatype SensorConfig = SensorConfig(
    category: string,
    name: string,
    unit: string,
    sensorType: SensorType,
    queryName: string)

  /** A WMI result row: only its `value` column is read. */
  datatype WmiSensor = WmiSensor(value: F32)

  /** What the WMI layer reports when a query fails. */
  datatype WmiError = WmiError(detail: string)

  /** `fetch_reading`'s error: an anyhow context over the cause. */
  datatype FetchError =
    | QueryFailed(cause: WmiError)
    | NoData(queryName: string)

  /** The connection's `raw_query`, as seen by the poller. */
  type WmiQuery = string -> Result<seq<WmiSensor>, WmiError>

  /** The clock: the instant read while handling the sensor at the given position of a tick. */
  type Clock = nat -> SystemTime

  /** `{:?}` of a sensor type: the variant's own name. */
  function SensorTypeName(t: SensorType): (s: string)
    ensures s == "Temperature" || s == "Load"
    ensures s == "Temperature" <==> t == Temperature
  {
    match t
    case Temperature => "Temperature"
    case Load => "Load"
  }

  /** Reads a type name back; the inverse of `SensorTypeName`. */
  function ParseSensorType(s: string): (r: Option<SensorType>)
    ensures r.Some? ==> SensorTypeName(r.value) == s
  {
    if s == "Temperature" then Some(Temperature)
    else if s == "Load" then Some(Load)
    else None
  }

  lemma SensorTypeNameRoundTrip(t: SensorType)
    ensures ParseSensorType(SensorTypeName(t)) == Some(t)
  {
  }

  /** `sensor_configs`: the fixed default table. */
  function SensorConfigs(): (cs: seq<SensorConfig>)
    ensures |cs| == 3
    ensures forall i :: 0 <= i < |cs| ==> cs[i].category == "computer"
    ensures forall i :: 0 <= i < |cs| ==> cs[i].name != [] && cs[i].unit != [] && cs[i].queryName != []
    ensures cs[0].sensorType == Temperature && cs[1].sensorType == Load && cs[2].sensorType == Load
  {
    [
      SensorConfig("computer", "CPU Temperature", "°C", Temperature, "Core"),
      SensorConfig("computer", "CPU Usage", "%", Load, "CPU Total"),
      SensorConfig("computer", "Memory Usage", "%", Load, "Memory")
    ]
  }

  // The fixed pieces of the query text around the sensor type and the name pattern.
  const SelectPrefix: string := "SELECT * FROM Sensor WHERE SensorType = '"
  const NameLikeOpen: string := "' AND Name LIKE '%"
  const NameLikeClose: string := "%'"

  /** `build_query`: the sensor type by variant name, the name always by substring match. */
  function BuildQuery(c: SensorConfig): (q: string)
    ensures SelectPrefix <= q
    ensures |q| >= |NameLikeClose| && q[|q| - |NameLikeClose|..] == NameLikeClose
  {
    "SELECT * FROM Sensor WHERE SensorType = '" + SensorTypeName(c.sensorType)
      + "' AND Name LIKE '%" + c.queryName + "%'"
  }

  /** Reads a query of the shape `BuildQuery` produces back into its sensor type and
      name pattern. Any other shape, an equality test on the name among them, is refused. */
  function ParseQuery(q: string): Option<(SensorType, string)>
  {
    if !(SelectPrefix <= q) then None
    else
      var rest := q[|SelectPrefix|..];
      if SensorTypeName(Temperature) + NameLikeOpen <= rest then
        ParseLikePattern(Temperature, rest[|SensorTypeName(Temperature) + NameLikeOpen|..])
      else if SensorTypeName(Load) + NameLikeOpen <= rest then
        ParseLikePattern(Load, rest[|SensorTypeName(Load) + NameLikeOpen|..])
      else None
  }

  function ParseLikePattern(t: SensorType, s: string): Option<(SensorType, string)>
  {
    if |s| >= |NameLikeClose| && s[|s| - |NameLikeClose|..] == NameLikeClose
    then Some((t, s[..|s| - |NameLikeClose|]))
    else None
  }

  /** `BuildQuery` loses nothing: the sensor type and the name pattern can be read back. */
  lemma {:induction false} BuildQueryRoundTrip(c: SensorConfig)
    ensures ParseQuery(BuildQuery(c)) == Some((c.sensorType, c.queryName))
  {
    var q := BuildQuery(c);
    var head := SensorTypeName(c.sensorType) + NameLikeOpen;
    var rest := head + c.queryName + NameLikeClose;
    assert q == SelectPrefix + rest;
    assert q[|SelectPrefix|..] == rest;
    assert head <= rest;
    assert rest[|head|..] == c.queryName + NameLikeClose;
    if c.sensorType == Load {
      assert rest[0] == 'L';
      assert !(SensorTypeName(Temperature) + NameLikeOpen <= rest);
    }
  }

  /** Two configurations yield the same query exactly when they agree on type and pattern. */
  lemma BuildQueryInjective(a: SensorConfig, b: SensorConfig)
    ensures BuildQuery(a) == BuildQuery(b) <==> (a.sensorType == b.sensorType && a.queryName == b.queryName)
  {
    if BuildQuery(a) == BuildQuery(b) {
      BuildQueryRoundTrip(a);
      BuildQueryRoundTrip(b);
    }
  }

  /** The default table queries three different things. */
  lemma DefaultQueriesDistinct()
    ensures forall i, j :: 0 <= i < j < |SensorConfigs()| ==>
      BuildQuery(SensorConfigs()[i]) != BuildQuery(SensorConfigs()[j])
  {
    var cs := SensorConfigs();
    forall i, j | 0 <= i < j < |cs|
      ensures BuildQuery(cs[i]) != BuildQuery(cs[j])
    {
      BuildQueryInjective(cs[i], cs[j]);
    }
  }

  /** The exact text sent to WMI for the first default sensor. */
  lemma DefaultTemperatureQuery()
    ensures BuildQuery(SensorConfigs()[0]) == "SELECT * FROM Sensor WHERE SensorType = 'Temperature' AND Name LIKE '%Core%'"
  {
    var c := SensorConfigs()[0];
    assert c.sensorType == Temperature && c.queryName == "Core";
    var a := "SELECT * FROM Sensor WHERE SensorType = '" + "Temperature";
    assert a == "SELECT * FROM Sensor WHERE SensorType = 'Temperature";
    var b := a + "' AND Name LIKE '%";
    assert b == "SELECT * FROM Sensor WHERE SensorType = 'Temperature' AND Name LIKE '%";
    var d := b + "Core";
    assert d == "SELECT * FROM Sensor WHERE SensorType = 'Temperature' AND Name LIKE '%Core";
    assert d + "%'" == "SELECT * FROM Sensor WHERE SensorType = 'Temperature' AND Name LIKE '%Core%'";
  }

  const QueryFailedText: string := "Failed to query sensor data"

  /** `format!("{e}")` of a fetch error: anyhow displays only the outermost context. */
  function ErrorText(e: FetchError): (s: string)
    ensures e.QueryFailed? <==> s == QueryFailedText
    ensures e.NoData? ==> "No data found for " + e.queryName <= s
  {
    assert "No data found for "[0] != QueryFailedText[0];
    match e
    case QueryFailed(_) => "Failed to query sensor data"
    case NoData(q) => "No data found for " + q + ". \t Is LibreHardwareMonitor Running?"
  }

  /** The text tells a failed query from a missing sensor, and names the missing sensor's
      pattern; it does not carry the WMI error's detail. */
  lemma ErrorTextMeaning(e1: FetchError, e2: FetchError)
    ensures e1.QueryFailed? && e2.QueryFailed? ==> ErrorText(e1) == ErrorText(e2)
    ensures ErrorText(e1) == ErrorText(e2) && e1.NoData? ==> e1 == e2
  {
    if ErrorText(e1) == ErrorText(e2) && e1.NoData? {
      var pre := "No data found for ";
      var post := ". \t Is LibreHardwareMonitor Running?";
      assert ErrorText(e1)[0] == 'N';
      assert e2.NoData?;
      var t := ErrorText(e1);
      assert t[|pre|..|t| - |post|] == e1.queryName;
      assert t[|pre|..|t| - |post|] == e2.queryName;
    }
  }

  /** `fetch_reading`: query, take the first row, stamp it with the clock. */
  function FetchReading(c: SensorConfig, wmi: WmiQuery, now: SystemTime): (r: Result<Reading, FetchError>)
    ensures wmi(BuildQuery(c)).Err? ==>
      r == Err(QueryFailed(wmi(BuildQuery(c)).error)) && ErrorText(r.error) == QueryFailedText
    ensures wmi(BuildQuery(c)).Ok? && wmi(BuildQuery(c)).value == [] ==>
      r == Err(NoData(c.queryName))
      && ErrorText(r.error) == "No data found for " + c.queryName + ". \t Is LibreHardwareMonitor Running?"
    ensures r.Ok? <==> wmi(BuildQuery(c)).Ok? && wmi(BuildQuery(c)).value != []
    ensures r.Ok? ==> r.value == Reading.Reading(now, c.name, wmi(BuildQuery(c)).value[0].value, c.unit, c.category)
  {
    match wmi(BuildQuery(c))
    case Err(e) => Err(QueryFailed(e))
    case Ok(sensors) =>
      if |sensors| == 0 then Err(NoData(c.queryName))
      else Ok(Reading.Reading(now, c.name, sensors[0].value, c.unit, c.category))
  }

  /** Only the first row matters: rows after it never change the outcome. */
  lemma FirstRowWins(c: SensorConfig, wmi1: WmiQuery, wmi2: WmiQuery, now: SystemTime)
    requires wmi1(BuildQuery(c)).Ok? && wmi2(BuildQuery(c)).Ok?
    requires |wmi1(BuildQuery(c)).value| > 0 && |wmi2(BuildQuery(c)).value| > 0
    requires wmi1(BuildQuery(c)).value[0] == wmi2(BuildQuery(c)).value[0]
    ensures FetchReading(c, wmi1, now) == FetchReading(c, wmi2, now)
  {
  }

  /** The arm of the tick loop: a reading is sent as a reading, an error as its text. */
  function ToEventKind(r: Result<Reading, FetchError>): (k: EventKind)
    ensures k.Reading? <==> r.Ok?
    ensures r.Ok? ==> k == EventKind.Reading(r.value)
    ensures r.Err? ==> k == Message(ErrorText(r.error))
  {
    match r
    case Ok(reading) => EventKind.Reading(reading)
    case Err(e) => Message(ErrorText(e))
  }

  /** The payloads one tick sends, sensor by sensor in configuration order; the sensor at
      position `i` reads the clock as `clock(i)`. */
  function TickKinds(sensors: seq<SensorConfig>, wmi: WmiQuery, clock: Clock): (ks: seq<EventKind>)
    ensures |ks| == |sensors|
    ensures forall i :: 0 <= i < |sensors| ==> ks[i] == ToEventKind(FetchReading(sensors[i], wmi, clock(i)))
  {
    if sensors == [] then []
    else
      var n := |sensors| - 1;
      TickKinds(sensors[..n], wmi, clock) + [ToEventKind(FetchReading(sensors[n], wmi, clock(n)))]
  }

  /** The body of one `interval.tick()` iteration of `run`: every sensor is fetched in
      order and its outcome sent through the context, whatever happened to the others. */
  method RunTick(ctx: ModuleCtx, bus: Bus, sensors: seq<SensorConfig>, wmi: WmiQuery, clock: Clock)
    returns (out: Bus)
    requires bus.receivers > 0
    ensures out.published == bus.published + Stamp(ctx.name, TickKinds(sensors, wmi, clock))
    ensures out.receivers == bus.receivers
  {
    out := bus;
    var i := 0;
    while i < |sensors|
      invariant 0 <= i <= |sensors|
      invariant out.receivers == bus.receivers
      invariant out.published == bus.published + Stamp(ctx.name, TickKinds(sensors[..i], wmi, clock))
    {
      var fetched := FetchReading(sensors[i], wmi, clock(i));
      TickStep(ctx.name, bus.published, sensors, wmi, clock, i);
      out := SendOutcome(ctx, out, fetched);
      i := i + 1;
    }
    assert sensors[..i] == sensors;
  }

  /** The loop body's match: a reading goes out through `send_reading`, an error's text
      through `send_message`. */
  method SendOutcome(ctx: ModuleCtx, bus: Bus, fetched: Result<Reading, FetchError>) returns (out: Bus)
    requires bus.receivers > 0
    ensures out.published == bus.published + [Event(ctx.name, ToEventKind(fetched))]
    ensures out.receivers == bus.receivers
  {
    match fetched {
      case Ok(reading) =>
        out := SendReading(ctx, bus, reading);
      case Err(e) =>
        out := SendMessage(ctx, bus, ErrorText(e));
    }
  }

  lemma TickKindsStep(sensors: seq<SensorConfig>, wmi: WmiQuery, clock: Clock, i: nat)
    requires i < |sensors|
    ensures TickKinds(sensors[..i + 1], wmi, clock)
      == TickKinds(sensors[..i], wmi, clock) + [ToEventKind(FetchReading(sensors[i], wmi, clock(i)))]
  {
    assert sensors[..i + 1][..i] == sensors[..i];
  }

  lemma TickStep(name: string, log: seq<Event>, sensors: seq<SensorConfig>, wmi: WmiQuery, clock: Clock, i: nat)
    requires i < |sensors|
    ensures log + Stamp(name, TickKinds(sensors[..i + 1], wmi, clock))
      == log + Stamp(name, TickKinds(sensors[..i], wmi, clock))
        + [Event(name, ToEventKind(FetchReading(sensors[i], wmi, clock(i))))]
  {
    var k := ToEventKind(FetchReading(sensors[i], wmi, clock(i)));
    var before := TickKinds(sensors[..i], wmi, clock);
    TickKindsStep(sensors, wmi, clock, i);
    StampSnoc(name, before, k);
  }

  lemma StampSnoc(name: string, ks: seq<EventKind>, k: EventKind)
    ensures Stamp(name, ks + [k]) == Stamp(name, ks) + [Event(name, k)]
  {
  }

  function CountReadings(ks: seq<EventKind>): nat
  {
    if ks == [] then 0
    else CountReadings(ks[..|ks| - 1]) + (if ks[|ks| - 1].Reading? then 1 else 0)
  }

  function CountSuccesses(sensors: seq<SensorConfig>, wmi: WmiQuery, clock: Clock): nat
  {
    if sensors == [] then 0
    else
      var n := |sensors| - 1;
      CountSuccesses(sensors[..n], wmi, clock) + (if FetchReading(sensors[n], wmi, clock(n)).Ok? then 1 else 0)
  }

  /** A tick sends exactly one reading per sensor whose fetch succeeded; since it sends one
      payload per sensor, every other sensor gets a message. */
  lemma {:induction false} TickReadingCount(sensors: seq<SensorConfig>, wmi: WmiQuery, clock: Clock)
    ensures CountReadings(TickKinds(sensors, wmi, clock)) == CountSuccesses(sensors, wmi, clock)
  {
    if sensors != [] {
      var n := |sensors| - 1;
      var ks := TickKinds(sensors, wmi, clock);
      assert ks[..|ks| - 1] == TickKinds(sensors[..n], wmi, clock);
      TickReadingCount(sensors[..n], wmi, clock);
    }
  }

  /** Failure isolation: what a tick sends for one sensor depends on that sensor's own
      query alone, so a sensor failing before it changes nothing. */
  lemma TickIsolation(sensors: seq<SensorConfig>, wmi1: WmiQuery, wmi2: WmiQuery, clock: Clock, i: nat)
    requires i < |sensors|
    requires wmi1(BuildQuery(sensors[i])) == wmi2(BuildQuery(sensors[i]))
    ensures TickKinds(sensors, wmi1, clock)[i] == TickKinds(sensors, wmi2, clock)[i]
  {
    assert FetchReading(sensors[i], wmi1, clock(i)) == FetchReading(sensors[i], wmi2, clock(i));
  }

  /** Two sensors, the first found and the second missing: one reading and one
      "no data" message, in that order. */
  lemma PartialFailureTick(c1: SensorConfig, c2: SensorConfig, wmi: WmiQuery, clock: Clock, row: WmiSensor)
    requires wmi(BuildQuery(c1)) == Ok([row])
    requires wmi(BuildQuery(c2)) == Ok([])
    ensures TickKinds([c1, c2], wmi, clock) == [
      EventKind.Reading(Reading.Reading(clock(0), c1.name, row.value, c1.unit, c1.category)),
      Message("No data found for " + c2.queryName + ". \t Is LibreHardwareMonitor Running?")]
    ensures CountReadings(TickKinds([c1, c2], wmi, clock)) == 1
  {
    var ks := TickKinds([c1, c2], wmi, clock);
    assert ks[..1] == [ks[0]];
    assert [ks[0]][..0] == [];
    assert CountReadings(ks[..1]) == 1;
  }
}
