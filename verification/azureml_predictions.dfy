/** The request payload for the load-prediction endpoint, and the pairing of its
    response with the feature rows (src/infrastructure/azureml/predictions.py). */
module AzureMlPredictions {
  import opened Wrappers
  import opened Errors
  import opened Indices
  import opened PredictedLoad

  /** The JSON values a payload is made of. Integers and floats are kept apart, as
      Python's JSON encoder keeps them apart. */
  datatype JsonValue =
    | JNull
    | JBool(b: bool)
    | JInt(i: int)
    | JFloat(x: real)
    | JString(str: string)
    | JArray(items: seq<JsonValue>)
    | JObject(fields: map<string, JsonValue>)

  /** `_DitmPredictionPayload`. */
  datatype DitmPredictionPayload = DitmPredictionPayload(
    columns: seq<string>, index: seq<int>, data: seq<seq<real>>, params: map<string, JsonValue>)

  function EncodeList<T>(xs: seq<T>, encode: T -> JsonValue): seq<JsonValue>
  {
    if xs == [] then [] else [encode(xs[0])] + EncodeList(xs[1..], encode)
  }

  /** Decodes every item; None as soon as one does not decode. */
  function DecodeList<T>(items: seq<JsonValue>, decode: JsonValue -> Option<T>): Option<seq<T>>
  {
    if items == [] then Some([])
    else match (decode(items[0]), DecodeList(items[1..], decode))
      case (Some(x), Some(rest)) => Some([x] + rest)
      case _ => None
  }

  lemma {:induction false} DecodeEncodeList<T>(xs: seq<T>, encode: T -> JsonValue, decode: JsonValue -> Option<T>)
    requires forall x :: decode(encode(x)) == Some(x)
    ensures DecodeList(EncodeList(xs, encode), decode) == Some(xs)
  {
    if xs != [] {
      DecodeEncodeList(xs[1..], encode, decode);
      assert [xs[0]] + xs[1..] == xs;
    }
  }

  function EncodeString(s: string): JsonValue { JString(s) }
  function DecodeString(j: JsonValue): Option<string> { if j.JString? then Some(j.str) else None }
  function EncodeInt(i: int): JsonValue { JInt(i) }
  function DecodeInt(j: JsonValue): Option<int> { if j.JInt? then Some(j.i) else None }
  function EncodeFloat(x: real): JsonValue { JFloat(x) }
  function DecodeFloat(j: JsonValue): Option<real> { if j.JFloat? then Some(j.x) else None }
  function EncodeRow(row: seq<real>): JsonValue { JArray(EncodeList(row, EncodeFloat)) }
  function DecodeRow(j: JsonValue): Option<seq<real>> { if j.JArray? then DecodeList(j.items, DecodeFloat) else None }

  lemma DecodeEncodeRow(row: seq<real>)
    ensures DecodeRow(EncodeRow(row)) == Some(row)
  {
    DecodeEncodeList(row, EncodeFloat, DecodeFloat);
  }

  /** `as_json`: columns, index and data under "input_data", params at the top level. */
  function AsJson(p: DitmPredictionPayload): (j: JsonValue)
    ensures j.JObject? && j.fields.Keys == {"input_data", "params"}
    ensures j.fields["params"] == JObject(p.params)
    ensures j.fields["input_data"].JObject?
    ensures j.fields["input_data"].fields.Keys == {"columns", "index", "data"}
  {
    JObject(map[
      "input_data" := JObject(map[
        "columns" := JArray(EncodeList(p.columns, EncodeString)),
        "index" := JArray(EncodeList(p.index, EncodeInt)),
        "data" := JArray(EncodeList(p.data, EncodeRow))]),
      "params" := JObject(p.params)])
  }

  /** Reads a payload back out of its JSON form; None if the JSON does not have that shape. */
  function FromJson(j: JsonValue): Option<DitmPredictionPayload>
  {
    if !j.JObject? || "input_data" !in j.fields || "params" !in j.fields then None
    else
      var input := j.fields["input_data"];
      var params := j.fields["params"];
      if !input.JObject? || !params.JObject? then None
      else if "columns" !in input.fields || "index" !in input.fields || "data" !in input.fields then None
      else
        var columns := input.fields["columns"];
        var index := input.fields["index"];
        var data := input.fields["data"];
        if !columns.JArray? || !index.JArray? || !data.JArray? then None
        else
          match (DecodeList(columns.items, DecodeString), DecodeList(index.items, DecodeInt), DecodeList(data.items, DecodeRow))
          case (Some(c), Some(ix), Some(d)) => Some(DitmPredictionPayload(c, ix, d, params.fields))
          case _ => None
  }

  /** `as_json` passes columns, index, data and params through unchanged: they can be
      read back exactly. */
  lemma AsJsonRoundTrip(p: DitmPredictionPayload)
    ensures FromJson(AsJson(p)) == Some(p)
  {
    DecodeEncodeList(p.columns, EncodeString, DecodeString);
    DecodeEncodeList(p.index, EncodeInt, DecodeInt);
    forall row: seq<real>
      ensures DecodeRow(EncodeRow(row)) == Some(row)
    {
      DecodeEncodeRow(row);
    }
    DecodeEncodeList(p.data, EncodeRow, DecodeRow);
  }

  /** One row of the feature table: its timestamp and the values of the model's input columns. */
  datatype FeatureRow = FeatureRow(datetime: int, values: seq<real>)

  /** The input columns the prediction model is called with, in order. */
  const DitmColumns: seq<string> := [
    "year", "month", "day", "hour", "minute", "dayofyear", "dayofweek", "weekofyear",
    "is_weekend", "is_holiday", "lag_1_days", "lag_2_days", "lag_3_days", "lag_4_days",
    "lag_5_days", "lag_6_days", "lag_7_days", "lag_1_year", "temperature",
    "irradiation_duration", "irradiation", "cloud_coverage", "rain", "humidity", "snow",
    "scaled_profile"]

  /** The payload sent for a feature table: the fixed columns, index 0..n-1, one data row
      per feature row without its timestamp, and no parameters. */
  function InferencePayload(features: seq<FeatureRow>): (p: DitmPredictionPayload)
    ensures p.columns == DitmColumns
    ensures |p.index| == |features|
    ensures forall i :: 0 <= i < |p.index| ==> p.index[i] == i
    ensures |p.data| == |features|
    ensures forall i :: 0 <= i < |p.data| ==> p.data[i] == features[i].values
    ensures p.params == map[]
  {
    DitmPredictionPayload(
      DitmColumns,
      Range(0, |features|),
      seq(|features|, i requires 0 <= i < |features| => features[i].values),
      map[])
  }

  /** The body posted to the endpoint for a feature table; it reads back as the payload. */
  function InferenceRequest(features: seq<FeatureRow>): (j: JsonValue)
    ensures FromJson(j) == Some(InferencePayload(features))
  {
    AsJsonRoundTrip(InferencePayload(features));
    AsJson(InferencePayload(features))
  }

  const MismatchMessage: string := "Features dataframe and predictions list did not match"

  /** `get_predictions_for_features` once the endpoint has answered with `predictions`
      (the HTTP post of `InferenceRequest(features)` is outside the model): a prediction
      count that differs from the number of feature rows raises ValueError; otherwise
      prediction i becomes a 15-minute load at the timestamp of feature row i. */
  method GetPredictionsForFeatures(features: seq<FeatureRow>, predictions: seq<real>)
    returns (r: Result<seq<PredictedGridAssetLoad>, Exception>)
    ensures r.Failure? <==> |predictions| != |features|
    ensures r.Failure? ==> r.error == ValueError(MismatchMessage)
    ensures r.Success? ==> |r.value| == |predictions|
    ensures r.Success? ==> forall i :: 0 <= i < |r.value| ==>
      && r.value[i].time == features[i].datetime
      && r.value[i].load == predictions[i]
      && r.value[i].duration == QuarterHour
  {
    if |predictions| != |features| {
      return Failure(ValueError(MismatchMessage));
    }
    var loads: seq<PredictedGridAssetLoad> := [];
    var index := 0;
    while index < |predictions|
      invariant 0 <= index <= |predictions|
      invariant |loads| == index
      invariant forall i :: 0 <= i < index ==>
        loads[i] == PredictedGridAssetLoad(features[i].datetime, predictions[i], QuarterHour)
    {
      loads := loads + [PredictedGridAssetLoad(features[index].datetime, predictions[index], QuarterHour)];
      index := index + 1;
    }
    return Success(loads);
  }
}
