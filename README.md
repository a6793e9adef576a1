# Naijawatt Monitor: feature alignment

Naijawatt Monitor is a single-page dashboard. An operator enters power-system readings and
environmental conditions, and a pretrained classifier returns a system status label. The only logic in
the dashboard is the step in `dashboard.py` that turns one form submission into the ordered numeric
feature vector the classifier expects. This project models that step and proves what it computes.

- **Encoding** (`encoding.dfy`): the three categorical dictionaries `time_mapping`, `day_mapping` and
  `weather_mapping`, and the lookup `mapping[label]`. The lookup raises `KeyError` on an unknown label;
  it never falls back to a default. Each dictionary is proved to be the index encoding of its select
  box's option list: its domain is exactly the options, each option's code is its position in the list,
  and so the codes are distinct.
- **InputRecord** (`record.dfy`): the one-row record the dashboard builds from a submission. Six
  values are copied: five readings as they are and the fault count as a real. Power is divided by 1000 (W to kW). Light intensity is divided by 10
  (percent to a 0-10 scale). The three categorical choices are replaced by their codes. The lookups run
  in the literal's order, so the `KeyError` names the first unknown label.
- **Alignment** (`alignment.dfy`): the fill loop (`for col in expected_features`) is a method over a
  local map, proved against the function `Filled`. That function gives every schema column the row
  lacks the value 0 and leaves present values alone. The selection `input_data[expected_features]`
  keeps exactly the schema's columns, in schema order, and drops every other column. It raises a
  `KeyError` when a column is missing. That error is proved unreachable once the fill has run.
- **Dashboard** (`dashboard.dfy`): the whole pipeline from a submission to the vector, and the
  prediction. The pipeline is proved equal, slot by slot, to a column-wise reference table
  (`SlotValue`). The method `Featurize` is proved to return the value of the function `FeatureVector`
  of its inputs. So identical submissions against the same schema give identical vectors.

A DataFrame row is a `map<string, real>` from column name to value, and the aligned row is a
`seq<real>`. Divisions use exact `real` arithmetic. The schema (`model.feature_names_in_`) is an
arbitrary `seq<string>` parameter, and duplicates are allowed. The classifier is a function parameter
`predict`. The widgets' numeric bounds appear only in the predicate `WithinWidgetBounds`, a
precondition of the lemmas about what the form can submit. The select boxes' option lists are the
constants `TimeChoices`, `DayChoices` and `WeatherChoices`, and the encoders' contracts and
`KnownLabels` are stated against them.

The code does not check the schema at startup: the schema is whatever `model.feature_names_in_` holds
when the model loads.

## Model

| member | source | states |
|---|---|---|
| Encoding.IndexEncodingLookup | dashboard.py:91-94 | A lookup in a dict that encodes an option list by position succeeds exactly when the label is an option. It then returns the option's position. Otherwise it raises KeyError naming the label. |
| Encoding.IndexEncodingInjective | dashboard.py:23-25 | In such an encoding, two labels with the same code are the same label. |
| Encoding.MappingsMatchChoices | dashboard.py:23-25 | Each dictionary's keys are exactly the options of its select box (lines 77-80). Each code is the option's position in that list. |
| Encoding.EncodeTime | dashboard.py:91 | `time_mapping[time_of_day]` succeeds exactly on the four Time of Day options. It returns the code c with `TimeChoices[c]` equal to the label. Otherwise it raises KeyError with the label. |
| Encoding.EncodeDay | dashboard.py:92 | The same for `day_mapping` and the two Day Type options. |
| Encoding.EncodeWeather | dashboard.py:94 | The same for `weather_mapping` and the four Weather Condition options. |
| Encoding.MappingCodes | dashboard.py:23-25 | Morning/Afternoon/Evening/Night give 0/1/2/3. Weekday/Weekend give 0/1. Clear/Cloudy/Rainy/Windy give 0/1/2/3. |
| Encoding.MappingsInjective | dashboard.py:23-25 | Within each dictionary, the codes are distinct. |
| InputRecord.BuildRecord | dashboard.py:84-96 | The record exists exactly when all three labels are known. Otherwise it is the KeyError of the first unknown label in literal order. The record's keys are the eleven column names. Six values are copied: five readings as they are and the fault count as a real. The kW slot times 1000 equals the power. The light slot times 10 equals the light intensity. Each code slot is the option's position in its select list. |
| InputRecord.DistinctCardinality | dashboard.py:84-96 | A set built from a repetition-free list of column names has one element per name. |
| InputRecord.RecordHasElevenColumns | dashboard.py:84-96 | The eleven column names are distinct, so the record has eleven entries and no column overwrites another. |
| InputRecord.WidgetInputsGiveRecord | dashboard.py:68-96 | A submission within the widget bounds always builds a record. Its kW and light slots lie in [0, 10]. |
| InputRecord.DefaultReadingRecord | dashboard.py:68-96 | The widgets' default submission gives 220, 5, 1.0, 0.8, 25, 7.5, codes 0/0/0, 50 and 0. |
| Alignment.Filled | dashboard.py:99-101 | After the loop, the keys are the old keys plus every schema name. Values that were present are unchanged. Every added key maps to 0. |
| Alignment.FillMissing | dashboard.py:99-101 | The loop over the schema, adding each absent column with 0, yields `Filled` of the row and the schema. |
| Alignment.FilledIdempotent | dashboard.py:99-101 | Running the fill a second time changes nothing. |
| Alignment.Missing | dashboard.py:104 | The list of missing names holds exactly the schema names the row lacks. |
| Alignment.Project | dashboard.py:104 | When every schema name is a column, the selection has one value per schema slot. Slot i holds the row's value for `schema[i]`. |
| Alignment.SelectColumns | dashboard.py:104 | The selection succeeds exactly when every schema name is a column. It then yields the schema-ordered values. Otherwise it raises a KeyError listing exactly the missing names, and that list is non-empty. |
| Alignment.Aligned | dashboard.py:99-104 | The aligned row has length `|schema|`. Slot i holds the record's value for `schema[i]` if present, else 0. |
| Alignment.AlignFeatures | dashboard.py:99-104 | The fill loop followed by the selection returns `Aligned` of the record and the schema. |
| Alignment.SelectAfterFill | dashboard.py:99-104 | Selecting after the fill never raises and yields the aligned row. |
| Alignment.AlignedIgnoresOtherColumns | dashboard.py:104 | Two records that agree on the schema's columns give the same aligned row. Columns outside the schema have no effect. |
| Dashboard.RecordMatchesSlot | dashboard.py:84-96 | Each record column holds the column-wise reference value. Every name outside the record has reference value 0. |
| Dashboard.AlignedMatchesSlots | dashboard.py:84-104 | The aligned record equals the column-wise reference, slot by slot. |
| Dashboard.FeatureVector | dashboard.py:84-104 | The vector exists exactly when the labels are known, and otherwise it is the record's KeyError. It has length `|schema|`, and slot i is the reference value of `schema[i]`: the reading, kW, light/10 or code, or 0 for a name the record lacks. |
| Dashboard.Featurize | dashboard.py:84-104 | Building the record, filling and selecting returns `FeatureVector` of the submission and the schema. |
| Dashboard.AnalyzeSystemStatus | dashboard.py:111-116 | The displayed status is `predict` applied to the feature vector, unchanged. It exists exactly when the labels are known; otherwise it is the KeyError of the first unknown label. |
| Dashboard.WidgetSubmissionAligns | dashboard.py:68-104 | Every submission the widgets allow yields a vector, and its kW and light slots lie in [0, 10]. |
| Dashboard.DefaultSubmissionVector | dashboard.py:68-104 | For the default submission, the kW slot is 1.0, the light slot is 7.5, and the code slots are 0. Any schema name outside the record gets 0. |

## Left out

- Page configuration, CSS, markdown, column layout and widget rendering (lines 10-15, 28-81, 106-118): these are user-interface code. The numeric bounds appear only in `WithinWidgetBounds`; the option lists are the constants `TimeChoices`, `DayChoices` and `WeatherChoices`.
- `joblib.load` and `model.feature_names_in_` (lines 17-20): these are file input and library metadata. The schema is a parameter.
- `model.predict` (line 112): the classifier is a function parameter `predict: seq<real> -> L`. `predict` stands for `model.predict(input_data)[0]`; the column names are dropped because they equal the schema in order. Its internals, and any failure it raises, are not modelled.
- The button gate `st.button` (line 111): it is an interaction event. `AnalyzeSystemStatus` models what happens once it is pressed.
- IEEE floating-point rounding of the two divisions: the model uses exact reals.
- Value types: pandas keeps integer columns (the codes, the fault count, the default 0) as int64. The model holds every value as a real.
- The column order of the intermediate DataFrame is not modelled, because the selection at line 104 discards it.
- Alignment.SelectColumns: it does not model the text of pandas' KeyError message. It also does not model that pandas lists each missing name once; the model lists a missing name once per schema slot.
