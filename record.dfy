/**
  One form submission and the one-row input record the dashboard builds from it: six values copied (five
  readings as they are and the fault count as a real), power converted from watts to kilowatts, light
  intensity scaled from percent to 0-10, and the three categorical choices replaced by their codes.
*/
module InputRecord {
  import opened Wrappers
  import opened Encoding

  /** The raw values of the eleven form widgets, as entered. */
  datatype Reading = Reading(
    voltage: real,
    current: real,
    power: real,
    powerFactor: real,
    temperature: real,
    lightIntensity: real,
    timeOfDay: string,
    dayType: string,
    systemLoad: real,
    weather: string,
    pastFaults: int)

  /** The column names of the input record. */
  const VoltageCol := "Voltage (V)"
  const CurrentCol := "Current (A)"
  const PowerCol := "Power (kW)"
  const PowerFactorCol := "Power Factor"
  const TemperatureCol := "Temperature (°C)"
  const LightCol := "Light Intensity (%)"
  const TimeCol := "Time of Day"
  const DayCol := "Day Type Encoded"
  const LoadCol := "System Load (%)"
  const WeatherCol := "Weather Encoded"
  const FaultsCol := "Past faults"

  /** The record's columns in the order the record literal lists them. */
  const Columns: seq<string> := [VoltageCol, CurrentCol, PowerCol, PowerFactorCol, TemperatureCol,
                                 LightCol, TimeCol, DayCol, LoadCol, WeatherCol, FaultsCol]

  /** The submission the form shows before the user changes anything. */
  const DefaultReading := Reading(220.0, 5.0, 1000.0, 0.8, 25.0, 75.0, "Morning", "Weekday", 50.0, "Clear", 0)

  /** What the widgets let a user enter: each number within its widget's bounds, each choice from its list. */
  predicate WithinWidgetBounds(r: Reading)
  {
    && 0.0 <= r.voltage <= 500.0
    && 0.0 <= r.current <= 10.0
    && 0.0 <= r.power <= 10000.0
    && 0.0 <= r.powerFactor <= 1.0
    && -20.0 <= r.temperature <= 50.0
    && 0.0 <= r.lightIntensity <= 100.0
    && r.timeOfDay in TimeChoices
    && r.dayType in DayChoices
    && 0.0 <= r.systemLoad <= 100.0
    && r.weather in WeatherChoices
    && 0 <= r.pastFaults <= 10
  }

  /** True when the categorical choices are all labels the dictionaries know. */
  predicate KnownLabels(r: Reading)
  {
    r.timeOfDay in TimeChoices && r.dayType in DayChoices && r.weather in WeatherChoices
  }

  /** A real that codes option `choice`: a whole number that is the option's position in `choices`. */
  predicate CodesChoice(v: real, choices: seq<string>, choice: string)
  {
    v.Floor as real == v && 0 <= v.Floor < |choices| && choices[v.Floor] == choice
  }

  /** True when no two entries of `s` are equal. */
  predicate Distinct(s: seq<string>)
  {
    forall i, j :: 0 <= i < j < |s| ==> s[i] != s[j]
  }

  /**
    The record literal. The three dictionary lookups run in the literal's order (time, day, weather),
    so the first unknown label is the one the KeyError names.
  */
  function BuildRecord(r: Reading): (res: Result<map<string, real>, KeyError>)
    ensures res.Ok? <==> KnownLabels(r)
    ensures res.Err? ==> res.error == KeyError([
      if r.timeOfDay !in TimeChoices then r.timeOfDay
      else if r.dayType !in DayChoices then r.dayType
      else r.weather])
    ensures res.Ok? ==> res.value.Keys == Names(Columns)
    ensures res.Ok? ==>
      && res.value[VoltageCol] == r.voltage
      && res.value[CurrentCol] == r.current
      && res.value[PowerCol] * 1000.0 == r.power
      && res.value[PowerFactorCol] == r.powerFactor
      && res.value[TemperatureCol] == r.temperature
      && res.value[LightCol] * 10.0 == r.lightIntensity
      && CodesChoice(res.value[TimeCol], TimeChoices, r.timeOfDay)
      && CodesChoice(res.value[DayCol], DayChoices, r.dayType)
      && res.value[LoadCol] == r.systemLoad
      && CodesChoice(res.value[WeatherCol], WeatherChoices, r.weather)
      && res.value[FaultsCol] == r.pastFaults as real
  {
    match EncodeTime(r.timeOfDay)
    case Err(e) => Err(e)
    case Ok(time) =>
      match EncodeDay(r.dayType)
      case Err(e) => Err(e)
      case Ok(day) =>
        match EncodeWeather(r.weather)
        case Err(e) => Err(e)
        case Ok(weather) =>
          CodeIsChoice(time, TimeChoices);
          CodeIsChoice(day, DayChoices);
          CodeIsChoice(weather, WeatherChoices);
          ColumnSet();
          RecordEntries(r, time as real, day as real, weather as real);
          Ok(Record(r, time as real, day as real, weather as real))
  }

  /** The record literal of BuildRecord, with the three codes already looked up. */
  function Record(r: Reading, time: real, day: real, weather: real): map<string, real>
  {
    map[
      VoltageCol := r.voltage,
      CurrentCol := r.current,
      PowerCol := r.power / 1000.0,
      PowerFactorCol := r.powerFactor,
      TemperatureCol := r.temperature,
      LightCol := r.lightIntensity / 10.0,
      TimeCol := time,
      DayCol := day,
      LoadCol := r.systemLoad,
      WeatherCol := weather,
      FaultsCol := r.pastFaults as real]
  }

  /** The set of the record's column names. */
  lemma ColumnSet()
    ensures Names(Columns) == {VoltageCol, CurrentCol, PowerCol, PowerFactorCol, TemperatureCol,
                                       LightCol, TimeCol, DayCol, LoadCol, WeatherCol, FaultsCol}
  {
  }

  /** The keys and entries of the literal, spelled out once so that proofs about the record stay small. */
  lemma RecordEntries(r: Reading, time: real, day: real, weather: real)
    ensures Record(r, time, day, weather).Keys == {VoltageCol, CurrentCol, PowerCol, PowerFactorCol, TemperatureCol,
                                                   LightCol, TimeCol, DayCol, LoadCol, WeatherCol, FaultsCol}
    ensures var m := Record(r, time, day, weather);
      && m[VoltageCol] == r.voltage && m[CurrentCol] == r.current
      && m[PowerCol] * 1000.0 == r.power && m[PowerFactorCol] == r.powerFactor
      && m[TemperatureCol] == r.temperature && m[LightCol] * 10.0 == r.lightIntensity
      && m[TimeCol] == time && m[DayCol] == day && m[LoadCol] == r.systemLoad
      && m[WeatherCol] == weather && m[FaultsCol] == r.pastFaults as real
  {
  }

  /** A code that a lookup returned, written as a real, codes the looked-up option. */
  lemma CodeIsChoice(code: int, choices: seq<string>)
    requires 0 <= code < |choices|
    ensures CodesChoice(code as real, choices, choices[code])
  {
  }

  /** A set built from a sequence without repetitions has one element per entry. */
  lemma {:induction false} DistinctCardinality(s: seq<string>)
    requires Distinct(s)
    ensures |Names(s)| == |s|
  {
    if s != [] {
      DistinctCardinality(s[1..]);
      assert Names(s) == {s[0]} + Names(s[1..]);
      assert s[0] !in Names(s[1..]);
    }
  }

  /** The record literal names eleven different columns, so the record has eleven entries. */
  lemma RecordHasElevenColumns(r: Reading)
    requires KnownLabels(r)
    ensures |BuildRecord(r).value| == |Columns| == 11
  {
    assert Distinct(Columns);
    DistinctCardinality(Columns);
  }

  /**
    Within the widget bounds the lookups cannot fail, and both rescaled readings land in [0, 10]:
    power in [0, 10000] W gives [0, 10] kW, light in [0, 100] % gives [0, 10].
  */
  lemma WidgetInputsGiveRecord(r: Reading)
    requires WithinWidgetBounds(r)
    ensures BuildRecord(r).Ok?
    ensures 0.0 <= BuildRecord(r).value[PowerCol] <= 10.0
    ensures 0.0 <= BuildRecord(r).value[LightCol] <= 10.0
  {
  }

  /** The default submission gives the record 220 V, 5 A, 1 kW, 0.8, 25 °C, 7.5, codes 0, 0, 0, load 50, 0 faults. */
  lemma DefaultReadingRecord()
    ensures BuildRecord(DefaultReading) == Ok(map[
      VoltageCol := 220.0, CurrentCol := 5.0, PowerCol := 1.0, PowerFactorCol := 0.8,
      TemperatureCol := 25.0, LightCol := 7.5, TimeCol := 0.0, DayCol := 0.0,
      LoadCol := 50.0, WeatherCol := 0.0, FaultsCol := 0.0])
  {
  }
}
