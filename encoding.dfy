/**
  The three categorical encoders of the dashboard: fixed dictionaries from the labels a select box
  offers to small integer codes, and the lookup that raises KeyError on any other key.
*/
module Encoding {
  import opened Wrappers

  /** `time_mapping` */
  const TimeMapping: map<string, int> := map["Morning" := 0, "Afternoon" := 1, "Evening" := 2, "Night" := 3]
  /** `day_mapping` */
  const DayMapping: map<string, int> := map["Weekday" := 0, "Weekend" := 1]
  /** `weather_mapping` */
  const WeatherMapping: map<string, int> := map["Clear" := 0, "Cloudy" := 1, "Rainy" := 2, "Windy" := 3]

  /** The options of the 'Time of Day', 'Day Type' and 'Weather Condition' select boxes, in display order. */
  const TimeChoices: seq<string> := ["Morning", "Afternoon", "Evening", "Night"]
  const DayChoices: seq<string> := ["Weekday", "Weekend"]
  const WeatherChoices: seq<string> := ["Clear", "Cloudy", "Rainy", "Windy"]

  /** `mapping[key]` on a Python dict: the stored code, or a KeyError naming the key (there is no default). */
  function Lookup(mapping: map<string, int>, key: string): Result<int, KeyError>
  {
    if key in mapping then Ok(mapping[key]) else Err(KeyError([key]))
  }

  /**
    The encoding a mapping is meant to be: its domain is exactly the option list, and each option's
    code is its position in that list.
  */
  ghost predicate IndexEncoding(mapping: map<string, int>, choices: seq<string>)
  {
    && mapping.Keys == Names(choices)
    && forall i :: 0 <= i < |choices| ==> mapping[choices[i]] == i
  }

  /**
    A lookup in an index encoding succeeds exactly on the options and returns the option's position.
    The contracts of EncodeTime, EncodeDay and EncodeWeather are its instances for the three dictionaries.
  */
  lemma IndexEncodingLookup(mapping: map<string, int>, choices: seq<string>, key: string)
    requires IndexEncoding(mapping, choices)
    ensures Lookup(mapping, key).Ok? <==> key in choices
    ensures Lookup(mapping, key).Ok? ==>
      0 <= Lookup(mapping, key).value < |choices| && choices[Lookup(mapping, key).value] == key
    ensures Lookup(mapping, key).Err? ==> Lookup(mapping, key).error == KeyError([key])
  {
  }

  /** Different options of an index encoding never share a code; MappingsInjective is its instance for the three dictionaries. */
  lemma IndexEncodingInjective(mapping: map<string, int>, choices: seq<string>, a: string, b: string)
    requires IndexEncoding(mapping, choices)
    requires a in mapping && b in mapping && mapping[a] == mapping[b]
    ensures a == b
  {
  }

  /** Each of the source's three dictionaries is the index encoding of its select box's options. */
  lemma MappingsMatchChoices()
    ensures IndexEncoding(TimeMapping, TimeChoices)
    ensures IndexEncoding(DayMapping, DayChoices)
    ensures IndexEncoding(WeatherMapping, WeatherChoices)
  {
  }

  /** `time_mapping[time_of_day]` */
  function EncodeTime(key: string): (r: Result<int, KeyError>)
    ensures r.Ok? <==> key in TimeChoices
    ensures r.Ok? ==> 0 <= r.value < |TimeChoices| && TimeChoices[r.value] == key
    ensures r.Err? ==> r.error == KeyError([key])
  {
    Lookup(TimeMapping, key)
  }

  /** `day_mapping[day_type]` */
  function EncodeDay(key: string): (r: Result<int, KeyError>)
    ensures r.Ok? <==> key in DayChoices
    ensures r.Ok? ==> 0 <= r.value < |DayChoices| && DayChoices[r.value] == key
    ensures r.Err? ==> r.error == KeyError([key])
  {
    Lookup(DayMapping, key)
  }

  /** `weather_mapping[weather]` */
  function EncodeWeather(key: string): (r: Result<int, KeyError>)
    ensures r.Ok? <==> key in WeatherChoices
    ensures r.Ok? ==> 0 <= r.value < |WeatherChoices| && WeatherChoices[r.value] == key
    ensures r.Err? ==> r.error == KeyError([key])
  {
    Lookup(WeatherMapping, key)
  }

  /** The fixed codes of the three dictionaries. */
  lemma MappingCodes()
    ensures EncodeTime("Morning") == Ok(0) && EncodeTime("Afternoon") == Ok(1)
    ensures EncodeTime("Evening") == Ok(2) && EncodeTime("Night") == Ok(3)
    ensures EncodeDay("Weekday") == Ok(0) && EncodeDay("Weekend") == Ok(1)
    ensures EncodeWeather("Clear") == Ok(0) && EncodeWeather("Cloudy") == Ok(1)
    ensures EncodeWeather("Rainy") == Ok(2) && EncodeWeather("Windy") == Ok(3)
  {
  }

  /** Codes are distinct within each dictionary. */
  lemma MappingsInjective(a: string, b: string)
    ensures a in TimeMapping && b in TimeMapping && TimeMapping[a] == TimeMapping[b] ==> a == b
    ensures a in DayMapping && b in DayMapping && DayMapping[a] == DayMapping[b] ==> a == b
    ensures a in WeatherMapping && b in WeatherMapping && WeatherMapping[a] == WeatherMapping[b] ==> a == b
  {
  }
}
