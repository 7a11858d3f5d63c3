/** The recommendation function: one form submission becomes a named row, its
    two categorical columns go through the fitted encoder, the encoder's columns
    are put in front of the six measurements, the row is aligned to the training
    schema, and the classifier is asked for a label. Each stage that can fail
    has its own sentinel result, and a failed stage ends the request. */
module Recommender {
  import opened Frame

  const CategoricalCols: seq<string> := ["Soil_Type", "Crop_Type"]
  const NumericCols: seq<string> := ["Temperature", "Humidity", "Nitrogen", "Phosphorous", "Potassium", "Moisture"]

  const EncodingError: string := "Encoding Error"
  const ColumnMatchingError: string := "Column Matching Error"
  const PredictionError: string := "Prediction Error"

  /** The three error answers; the result area shows nothing for them. */
  const Sentinels: seq<string> := [EncodingError, ColumnMatchingError, PredictionError]

  /** The eight form fields. Temperature and humidity are floats in the form,
      written here as reals: they are only passed on, never computed with. */
  datatype InputRecord = InputRecord(
    soilType: string, cropType: string,
    temperature: real, humidity: real,
    nitrogen: int, phosphorous: int, potassium: int, moisture: int)

  /** The fitted encoder, loaded from disk and opaque: `transform` maps the
      categorical sub-frame to one row of output values and `featureNamesOut`
      names the output columns; either may fail. */
  datatype Encoder = Encoder(
    transform: Row -> Option<seq<Value>>,
    featureNamesOut: seq<string> -> Option<seq<string>>)

  /** The trained classifier, opaque: `predict` answers a sequence of labels, one
      per row of its input, or fails. */
  datatype Classifier = Classifier(predict: Row -> Option<seq<string>>)

  /** The one-row frame built from a submission, in the form's field order. */
  function InputRow(rec: InputRecord): (row: Row)
    ensures Names(row) == CategoricalCols + NumericCols
    ensures Distinct(Names(row))
  {
    [ Column("Soil_Type", Text(rec.soilType)),
      Column("Crop_Type", Text(rec.cropType)),
      Column("Temperature", Float(rec.temperature)),
      Column("Humidity", Float(rec.humidity)),
      Column("Nitrogen", Int(rec.nitrogen)),
      Column("Phosphorous", Int(rec.phosphorous)),
      Column("Potassium", Int(rec.potassium)),
      Column("Moisture", Int(rec.moisture)) ]
  }

  /** The categorical columns of a submission, as the encoder receives them. */
  function CategoricalRow(rec: InputRecord): (row: Row)
  {
    [Column("Soil_Type", Text(rec.soilType)), Column("Crop_Type", Text(rec.cropType))]
  }

  /** The six measurement columns of a submission, values untouched. */
  function NumericRow(rec: InputRecord): (row: Row)
  {
    [ Column("Temperature", Float(rec.temperature)),
      Column("Humidity", Float(rec.humidity)),
      Column("Nitrogen", Int(rec.nitrogen)),
      Column("Phosphorous", Int(rec.phosphorous)),
      Column("Potassium", Int(rec.potassium)),
      Column("Moisture", Int(rec.moisture)) ]
  }

  /** The input row is the categorical columns followed by the measurements. */
  lemma InputRowLayout(rec: InputRecord)
    ensures InputRow(rec) == CategoricalRow(rec) + NumericRow(rec)
  {
  }

  /** Encoding stage: select the categorical columns, transform them and label
      the output with the encoder's feature names. It fails when the encoder
      fails or when its names do not match its output in number. */
  function Encode(enc: Encoder, rec: InputRecord): (r: Option<Row>)
    ensures r.Some? <==>
      && enc.transform(CategoricalRow(rec)).Some?
      && enc.featureNamesOut(CategoricalCols).Some?
      && |enc.transform(CategoricalRow(rec)).value| == |enc.featureNamesOut(CategoricalCols).value|
    ensures r.Some? ==> Names(r.value) == enc.featureNamesOut(CategoricalCols).value
    ensures r.Some? ==> forall i :: 0 <= i < |r.value| ==> r.value[i].value == enc.transform(CategoricalRow(rec)).value[i]
  {
    SelectCategorical(rec);
    var selected := Select(InputRow(rec), CategoricalCols);
    match enc.transform(selected.value)
    case None => None
    case Some(values) =>
      match enc.featureNamesOut(CategoricalCols)
      case None => None
      case Some(names) => Labelled(values, names)
  }

  /** Selecting the categorical columns of a submission never fails and yields
      exactly its soil and crop columns, in that order. */
  lemma SelectCategorical(rec: InputRecord)
    ensures Select(InputRow(rec), CategoricalCols) == Some(CategoricalRow(rec))
  {
    var row, c := InputRow(rec), CategoricalRow(rec);
    InputRowLayout(rec);
    assert Names(row)[0] == "Soil_Type" && Names(row)[1] == "Crop_Type";
    var s := Select(row, CategoricalCols);
    assert s.Some?;
    assert Lookup(row, "Soil_Type") == Text(rec.soilType) by { assert row[0].name == "Soil_Type"; }
    assert Lookup(row, "Crop_Type") == Text(rec.cropType) by { assert row[1].name == "Crop_Type"; }
    assert |s.value| == |Names(s.value)| == 2;
    assert s.value[0].name == Names(s.value)[0] && s.value[1].name == Names(s.value)[1];
    assert s.value[0] == c[0] && s.value[1] == c[1];
    assert s.value == c;
  }

  /** Combination stage: keep the categorical labels the input actually has,
      drop them, and put the encoded columns in front of what remains. */
  function Combine(rec: InputRecord, encoded: Row): (r: Row)
    ensures r == encoded + NumericRow(rec)
  {
    var input := InputRow(rec);
    var toDrop := KeepPresent(CategoricalCols, Names(input));
    DropCategorical(rec);
    encoded + Drop(input, toDrop).value
  }

  /** Dropping the categorical columns from a submission never fails and leaves
      exactly its six measurements, in order. */
  lemma DropCategorical(rec: InputRecord)
    ensures KeepPresent(CategoricalCols, Names(InputRow(rec))) == CategoricalCols
    ensures Drop(InputRow(rec), CategoricalCols) == Some(NumericRow(rec))
  {
    var row, c, n := InputRow(rec), CategoricalRow(rec), NumericRow(rec);
    assert Names(row)[0] == "Soil_Type" && Names(row)[1] == "Crop_Type";
    assert forall l :: l in CategoricalCols ==> l in Names(row);
    assert row == c + n;
    WithoutConcat(c, n, CategoricalCols);
    WithoutCategorical(rec);
    WithoutNumeric(rec);
    assert Without(row, CategoricalCols) == n;
    assert Drop(row, CategoricalCols) == Some(Without(row, CategoricalCols));
  }

  lemma WithoutCategorical(rec: InputRecord)
    ensures Without(CategoricalRow(rec), CategoricalCols) == []
  {
    var c := CategoricalRow(rec);
    assert c[1..] == [c[1]];
    assert c[1..][1..] == [];
  }

  lemma WithoutNumeric(rec: InputRecord)
    ensures Without(NumericRow(rec), CategoricalCols) == NumericRow(rec)
  {
    var n := NumericRow(rec);
    forall k | 0 <= k < |n| ensures n[k].name !in CategoricalCols {
      assert n[k].name == NumericCols[k];
      assert |n[k].name| != |"Soil_Type"| || n[k].name[0] != 'S';
      assert |n[k].name| != |"Crop_Type"| || n[k].name[0] != 'C';
    }
    WithoutNone(n, CategoricalCols);
  }

  /** The whole request: the label, or the sentinel of the first stage that fails.
      `predict(...)[0]` on an empty answer fails inside the same guard, so it is a
      prediction error too. */
  function RecommendFertilizer(rec: InputRecord, enc: Encoder, schema: seq<string>, clf: Classifier): (r: string)
    ensures Encode(enc, rec).None? ==> r == EncodingError
    ensures Encode(enc, rec).Some? && Reindex(Combine(rec, Encode(enc, rec).value), schema).None? ==>
              r == ColumnMatchingError
    ensures Encode(enc, rec).Some? && Reindex(Combine(rec, Encode(enc, rec).value), schema).Some? ==>
              var aligned := Reindex(Combine(rec, Encode(enc, rec).value), schema).value;
              r == (if clf.predict(aligned).Some? && |clf.predict(aligned).value| > 0
                    then clf.predict(aligned).value[0] else PredictionError)
  {
    match Encode(enc, rec)
    case None => EncodingError
    case Some(encoded) =>
      match Reindex(Combine(rec, encoded), schema)
      case None => ColumnMatchingError
      case Some(aligned) =>
        match clf.predict(aligned)
        case None => PredictionError
        case Some(labels) => if |labels| > 0 then labels[0] else PredictionError
  }

  /** An encoding failure decides the answer: neither the schema nor the
      classifier has any influence on it. */
  lemma EncodingFailureStops(rec: InputRecord, enc: Encoder)
    requires Encode(enc, rec).None?
    ensures forall schema, clf :: RecommendFertilizer(rec, enc, schema, clf) == EncodingError
  {
  }

  /** A reindexing failure decides the answer: the classifier has no influence on it. */
  lemma ColumnMatchingFailureStops(rec: InputRecord, enc: Encoder, schema: seq<string>)
    requires Encode(enc, rec).Some?
    requires Reindex(Combine(rec, Encode(enc, rec).value), schema).None?
    ensures forall clf :: RecommendFertilizer(rec, enc, schema, clf) == ColumnMatchingError
  {
  }

  /** When the encoder's labels are distinct and none of them is a measurement
      name, the combined row can be aligned: the result is labelled exactly by the
      schema, each measurement the schema names carries the submitted value, each
      encoder column the schema names carries the encoder's value, and every other
      schema column is Zero. */
  lemma AlignCombined(rec: InputRecord, encoded: Row, schema: seq<string>)
    requires Distinct(Names(encoded) + NumericCols)
    ensures Reindex(Combine(rec, encoded), schema).Some?
    ensures var aligned := Reindex(Combine(rec, encoded), schema).value;
            && Names(aligned) == schema
            && (forall i, k :: 0 <= i < |schema| && 0 <= k < |NumericRow(rec)| && NumericRow(rec)[k].name == schema[i] ==>
                  aligned[i].value == NumericRow(rec)[k].value)
            && (forall i, j :: 0 <= i < |schema| && 0 <= j < |encoded| && encoded[j].name == schema[i] ==>
                  aligned[i].value == encoded[j].value)
            && (forall i :: 0 <= i < |schema| && schema[i] !in Names(encoded) + NumericCols ==> aligned[i].value == Zero)
  {
    CombinedNames(rec, encoded);
    ReindexAligns(Combine(rec, encoded), schema);
    AlignMeasurements(rec, encoded, schema);
    AlignEncoded(rec, encoded, schema);
  }

  lemma CombinedNames(rec: InputRecord, encoded: Row)
    ensures Names(Combine(rec, encoded)) == Names(encoded) + NumericCols
  {
    NamesConcat(encoded, NumericRow(rec));
    NumericNames(rec);
  }

  lemma NumericNames(rec: InputRecord)
    ensures Names(NumericRow(rec)) == NumericCols
  {
  }

  lemma AlignMeasurements(rec: InputRecord, encoded: Row, schema: seq<string>)
    requires Distinct(Names(encoded) + NumericCols)
    ensures Reindex(Combine(rec, encoded), schema).Some?
    ensures forall i, k :: 0 <= i < |schema| && 0 <= k < |NumericRow(rec)| && NumericRow(rec)[k].name == schema[i] ==>
              Reindex(Combine(rec, encoded), schema).value[i].value == NumericRow(rec)[k].value
  {
    CombinedNames(rec, encoded);
    ReindexConcat(encoded, NumericRow(rec), schema);
  }

  lemma AlignEncoded(rec: InputRecord, encoded: Row, schema: seq<string>)
    requires Distinct(Names(encoded) + NumericCols)
    ensures Reindex(Combine(rec, encoded), schema).Some?
    ensures forall i, j :: 0 <= i < |schema| && 0 <= j < |encoded| && encoded[j].name == schema[i] ==>
              Reindex(Combine(rec, encoded), schema).value[i].value == encoded[j].value
  {
    CombinedNames(rec, encoded);
    ReindexConcat(encoded, NumericRow(rec), schema);
  }

  /** Past a successful encoding and a successful reindex, the classifier sees a
      row labelled exactly by the schema, and it is consulted on that row only: two
      classifiers that answer the same on it give the same answer to the request. */
  lemma PredictionStage(rec: InputRecord, enc: Encoder, schema: seq<string>, clf: Classifier, other: Classifier)
    requires Encode(enc, rec).Some?
    requires Reindex(Combine(rec, Encode(enc, rec).value), schema).Some?
    ensures var aligned := Reindex(Combine(rec, Encode(enc, rec).value), schema).value;
            && Names(aligned) == schema
            && (other.predict(aligned) == clf.predict(aligned) ==>
                  RecommendFertilizer(rec, enc, schema, other) == RecommendFertilizer(rec, enc, schema, clf))
  {
  }

  /** An answer that is no sentinel comes only from a request in which every
      stage succeeded, and it is the classifier's first label on the aligned row. */
  lemma AnswerCarriesLabel(rec: InputRecord, enc: Encoder, schema: seq<string>, clf: Classifier)
    requires RecommendFertilizer(rec, enc, schema, clf) !in Sentinels
    ensures Encode(enc, rec).Some?
    ensures Reindex(Combine(rec, Encode(enc, rec).value), schema).Some?
    ensures var aligned := Reindex(Combine(rec, Encode(enc, rec).value), schema).value;
            && clf.predict(aligned).Some? && |clf.predict(aligned).value| > 0
            && RecommendFertilizer(rec, enc, schema, clf) == clf.predict(aligned).value[0]
  {
  }
}
