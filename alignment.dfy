/**
  Aligning the one-row input record with the classifier's training-time schema: every schema column the
  record lacks is added with value 0, then the columns are selected in schema order. A row is modelled as
  a map from column name to value, the aligned row as the sequence of its values.
*/
module Alignment {
  import opened Wrappers

  /**
    The row after the fill loop has visited the columns of `schema` in order: a column that is not yet
    present is added with value 0, one that is present is left alone.
  */
  function Filled(frame: map<string, real>, schema: seq<string>): (r: map<string, real>)
    ensures r.Keys == frame.Keys + Names(schema)
    ensures forall k :: k in frame ==> r[k] == frame[k]
    ensures forall k :: k in r && k !in frame ==> r[k] == 0.0
    decreases |schema|
  {
    if schema == [] then frame
    else
      var before := Filled(frame, schema[..|schema| - 1]);
      var col := schema[|schema| - 1];
      assert Names(schema) == Names(schema[..|schema| - 1]) + {col} by {
        assert schema == schema[..|schema| - 1] + [col];
      }
      if col in before then before else before[col := 0.0]
  }

  /** The fill loop: `for col in expected_features: if col not in input_data.columns: input_data[col] = 0`. */
  method FillMissing(frame: map<string, real>, schema: seq<string>) returns (filled: map<string, real>)
    ensures filled == Filled(frame, schema)
  {
    filled := frame;
    for i := 0 to |schema|
      invariant filled == Filled(frame, schema[..i])
    {
      assert schema[..i + 1][..i] == schema[..i];
      if schema[i] !in filled {
        filled := filled[schema[i] := 0.0];
      }
    }
    assert schema[..|schema|] == schema;
  }

  /** The schema columns the row lacks, in schema order. */
  function Missing(frame: map<string, real>, schema: seq<string>): (r: seq<string>)
    ensures forall c :: c in r <==> c in schema && c !in frame
  {
    if schema == [] then []
    else (if schema[0] in frame then [] else [schema[0]]) + Missing(frame, schema[1..])
  }

  /** The values of the schema's columns, in schema order. */
  function Project(frame: map<string, real>, schema: seq<string>): (v: seq<real>)
    requires forall c :: c in schema ==> c in frame
    ensures |v| == |schema|
    ensures forall i :: 0 <= i < |schema| ==> v[i] == frame[schema[i]]
  {
    if schema == [] then [] else [frame[schema[0]]] + Project(frame, schema[1..])
  }

  /**
    `input_data[expected_features]`: the row reduced to the schema's columns in schema order, columns outside
    the schema dropped; a KeyError naming the missing columns when the row lacks any of them.
  */
  function SelectColumns(frame: map<string, real>, schema: seq<string>): (r: Result<seq<real>, KeyError>)
    ensures r.Ok? <==> forall c :: c in schema ==> c in frame
    ensures r.Ok? ==> |r.value| == |schema| && forall i :: 0 <= i < |schema| ==> r.value[i] == frame[schema[i]]
    ensures r.Err? ==> r.error.keys != [] && forall c :: c in r.error.keys <==> c in schema && c !in frame
  {
    var missing := Missing(frame, schema);
    if missing == [] then Ok(Project(frame, schema))
    else
      assert missing[0] in missing;
      Err(KeyError(missing))
  }

  /**
    The aligned row: one value per schema slot, in schema order; the record's value where the record has
    the column, 0 where it does not.
  */
  function Aligned(record: map<string, real>, schema: seq<string>): (v: seq<real>)
    ensures |v| == |schema|
    ensures forall i :: 0 <= i < |schema| ==> v[i] == if schema[i] in record then record[schema[i]] else 0.0
  {
    Project(Filled(record, schema), schema)
  }

  /** The fill loop followed by the selection. The selection cannot fail, because the loop added every schema column. */
  method AlignFeatures(record: map<string, real>, schema: seq<string>) returns (vector: seq<real>)
    ensures vector == Aligned(record, schema)
  {
    var frame := FillMissing(record, schema);
    var selected := SelectColumns(frame, schema);
    vector := selected.value;
  }

  /** After the fill every schema column is present, so the selection succeeds and yields the aligned row. */
  lemma SelectAfterFill(record: map<string, real>, schema: seq<string>)
    ensures SelectColumns(Filled(record, schema), schema) == Ok(Aligned(record, schema))
  {
  }

  /** Running the fill loop a second time changes nothing. */
  lemma FilledIdempotent(frame: map<string, real>, schema: seq<string>)
    ensures Filled(Filled(frame, schema), schema) == Filled(frame, schema)
  {
  }

  /**
    Columns outside the schema do not reach the aligned row: two records that agree on the schema's
    columns (presence and value) give the same aligned row.
  */
  lemma AlignedIgnoresOtherColumns(r1: map<string, real>, r2: map<string, real>, schema: seq<string>)
    requires forall c :: c in schema ==> (c in r1 <==> c in r2)
    requires forall c :: c in schema && c in r1 && c in r2 ==> r1[c] == r2[c]
    ensures Aligned(r1, schema) == Aligned(r2, schema)
  {
  }
}
