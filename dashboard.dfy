/**
  The whole feature-alignment step of the dashboard, from one form submission to the vector the classifier
  receives, and the prediction shown to the user. The classifier itself is a parameter: its internals are
  not part of this model.
*/
module Dashboard {
  import opened Wrappers
  import opened Encoding
  import opened InputRecord
  import opened Alignment

  /**
    Reference definition of one slot of the feature vector, column by column: what the classifier should
    see under `name` for submission `r`.
  */
  function SlotValue(r: Reading, name: string): real
    requires KnownLabels(r)
  {
    if name == VoltageCol then r.voltage
    else if name == CurrentCol then r.current
    else if name == PowerCol then r.power / 1000.0
    else if name == PowerFactorCol then r.powerFactor
    else if name == TemperatureCol then r.temperature
    else if name == LightCol then r.lightIntensity / 10.0
    else if name == TimeCol then EncodeTime(r.timeOfDay).value as real
    else if name == DayCol then EncodeDay(r.dayType).value as real
    else if name == LoadCol then r.systemLoad
    else if name == WeatherCol then EncodeWeather(r.weather).value as real
    else if name == FaultsCol then r.pastFaults as real
    else 0.0
  }

  /**
    The feature vector of a submission against a schema: a KeyError exactly when a categorical label is
    unknown, otherwise one value per schema slot, in schema order, each given by the column-wise reference.
  */
  function FeatureVector(r: Reading, schema: seq<string>): (v: Result<seq<real>, KeyError>)
    ensures v.Ok? <==> KnownLabels(r)
    ensures v.Err? ==> v == Err(BuildRecord(r).error)
    ensures v.Ok? ==> |v.value| == |schema|
    ensures v.Ok? ==> forall i :: 0 <= i < |schema| ==> v.value[i] == SlotValue(r, schema[i])
  {
    match BuildRecord(r)
    case Err(e) => Err(e)
    case Ok(record) =>
      AlignedMatchesSlots(r, schema);
      Ok(Aligned(record, schema))
  }

  /**
    The record built from a submission holds the reference slot value under each of its columns, and
    every other name has reference value 0.
  */
  lemma RecordMatchesSlot(r: Reading, name: string)
    requires KnownLabels(r)
    ensures name in BuildRecord(r).value ==> BuildRecord(r).value[name] == SlotValue(r, name)
    ensures name !in BuildRecord(r).value ==> SlotValue(r, name) == 0.0
  {
    RecordIsLiteral(r);
    ColumnSet();
    if name in Columns {
      RecordSlot(r, name);
    } else {
      SlotOutsideColumns(r, name);
    }
  }

  /** With known labels, the record is the literal filled with the three looked-up codes. */
  lemma RecordIsLiteral(r: Reading)
    requires KnownLabels(r)
    ensures BuildRecord(r).value == Record(r, EncodeTime(r.timeOfDay).value as real,
                                           EncodeDay(r.dayType).value as real, EncodeWeather(r.weather).value as real)
  {
  }

  /** A name that is not a column of the record has reference value 0. */
  lemma SlotOutsideColumns(r: Reading, name: string)
    requires KnownLabels(r)
    requires name !in Columns
    ensures SlotValue(r, name) == 0.0
  {
  }

  /** The aligned record of a submission is the column-wise reference, slot by slot. */
  lemma AlignedMatchesSlots(r: Reading, schema: seq<string>)
    requires KnownLabels(r)
    ensures forall i :: 0 <= i < |schema| ==> Aligned(BuildRecord(r).value, schema)[i] == SlotValue(r, schema[i])
  {
    forall i | 0 <= i < |schema|
      ensures Aligned(BuildRecord(r).value, schema)[i] == SlotValue(r, schema[i])
    {
      RecordMatchesSlot(r, schema[i]);
    }
  }

  /** One column of the record against the reference slot value. */
  lemma RecordSlot(r: Reading, name: string)
    requires KnownLabels(r)
    requires name in Columns
    ensures
      var record := Record(r, EncodeTime(r.timeOfDay).value as real, EncodeDay(r.dayType).value as real,
                           EncodeWeather(r.weather).value as real);
      record[name] == SlotValue(r, name)
  {
  }

  /** dashboard.py lines 84-104: build the record, fill the missing schema columns, select in schema order. */
  method Featurize(r: Reading, schema: seq<string>) returns (v: Result<seq<real>, KeyError>)
    ensures v == FeatureVector(r, schema)
  {
    var built := BuildRecord(r);
    if built.Err? {
      return Err(built.error);
    }
    var vector := AlignFeatures(built.value, schema);
    v := Ok(vector);
  }

  /**
    The 'ANALYZE SYSTEM STATUS' action: the classifier `predict` applied to the aligned row, the label it
    returns displayed verbatim. `predict` stands for `model.predict(input_data)[0]`; the column names are
    dropped because they equal the schema in order.
  */
  method AnalyzeSystemStatus<L>(r: Reading, schema: seq<string>, predict: seq<real> -> L) returns (status: Result<L, KeyError>)
    ensures status.Ok? <==> KnownLabels(r)
    ensures status.Ok? ==> status.value == predict(FeatureVector(r, schema).value)
    ensures status.Err? ==> status.error == BuildRecord(r).error
  {
    var v := Featurize(r, schema);
    if v.Err? {
      return Err(v.error);
    }
    status := Ok(predict(v.value));
  }

  /** Any submission the widgets allow produces a vector, and its two rescaled slots lie in [0, 10]. */
  lemma WidgetSubmissionAligns(r: Reading, schema: seq<string>)
    requires WithinWidgetBounds(r)
    ensures FeatureVector(r, schema).Ok?
    ensures forall i :: 0 <= i < |schema| && schema[i] in {PowerCol, LightCol} ==>
      0.0 <= FeatureVector(r, schema).value[i] <= 10.0
  {
  }

  /**
    The default submission: 1000 W becomes 1.0 kW, 75 % light becomes 7.5, Morning and Weekday and
    Clear become 0, and a schema slot the record does not have becomes 0.
  */
  lemma DefaultSubmissionVector(schema: seq<string>, i: nat)
    requires i < |schema|
    ensures FeatureVector(DefaultReading, schema).Ok?
    ensures schema[i] == PowerCol ==> FeatureVector(DefaultReading, schema).value[i] == 1.0
    ensures schema[i] == LightCol ==> FeatureVector(DefaultReading, schema).value[i] == 7.5
    ensures schema[i] in {TimeCol, DayCol, WeatherCol} ==> FeatureVector(DefaultReading, schema).value[i] == 0.0
    ensures schema[i] !in Columns ==> FeatureVector(DefaultReading, schema).value[i] == 0.0
  {
    assert KnownLabels(DefaultReading);
    DefaultSlot(schema[i]);
  }

  /** The reference slot values of the default submission. */
  lemma DefaultSlot(name: string)
    ensures KnownLabels(DefaultReading)
    ensures name == PowerCol ==> SlotValue(DefaultReading, name) == 1.0
    ensures name == LightCol ==> SlotValue(DefaultReading, name) == 7.5
    ensures name in {TimeCol, DayCol, WeatherCol} ==> SlotValue(DefaultReading, name) == 0.0
    ensures name !in Columns ==> SlotValue(DefaultReading, name) == 0.0
  {
    MappingCodes();
    if name !in Columns {
      SlotOutsideColumns(DefaultReading, name);
    }
  }
}
