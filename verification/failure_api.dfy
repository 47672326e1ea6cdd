/** The HTTP route `POST /predict` of the stand-alone failure-prediction
    service: a validated request becomes one feature row for the model, and
    every exception becomes an error body. */
module FailureApi {
  import opened Wrappers
  import FailureInference

  /** The validated request body; the field types are already checked. */
  datatype SensorData = SensorData(
    airTempK: real,
    processTempK: real,
    rotationalSpeedRpm: int,
    torqueNm: real,
    toolWearMin: int,
    machineType: string)

  datatype Fault =
    | UnknownType(machineType: string)  // KeyError from the strict type lookup
    | ModelRaised                       // model.predict raised
    | EmptyPrediction                   // IndexError on [0]

  /** The response body: `{"failure_prediction": n}` or `{"error": ...}`. */
  datatype Response = FailurePrediction(value: int) | Error(fault: Fault)

  const TypeMapping: map<string, int> := map["L" := 0, "M" := 1, "H" := 2]

  /** The feature row, or None when the machine type is not L, M or H. */
  function InputRow(data: SensorData): (r: Option<seq<real>>)
    ensures r.Some? <==> data.machineType in TypeMapping
    ensures r.Some? ==> r.value == [data.airTempK, data.processTempK, data.rotationalSpeedRpm as real,
                                    data.torqueNm, data.toolWearMin as real, TypeMapping[data.machineType] as real]
  {
    if data.machineType !in TypeMapping then None
    else Some([data.airTempK, data.processTempK, data.rotationalSpeedRpm as real,
               data.torqueNm, data.toolWearMin as real, TypeMapping[data.machineType] as real])
  }

  /** `predict`; `model` stands for `model.predict` (None means it raised).
      The route answers with a prediction exactly when the type is one of
      L, M, H and the model returns at least one value for the single row;
      the prediction is that value truncated toward zero. An unknown type is
      reported as such. */
  function Predict(data: SensorData, model: seq<seq<real>> -> Option<seq<real>>): (r: Response)
    ensures r.FailurePrediction? <==>
              data.machineType in TypeMapping && model([InputRow(data).value]).Some?
              && |model([InputRow(data).value]).value| > 0
    ensures r.FailurePrediction? ==> r.value == FailureInference.Truncate(model([InputRow(data).value]).value[0])
    ensures data.machineType !in TypeMapping <==> r == Error(UnknownType(data.machineType))
  {
    match InputRow(data)
    case None => Error(UnknownType(data.machineType))
    case Some(row) =>
      match model([row])
      case None => Error(ModelRaised)
      case Some(predictions) =>
        if |predictions| == 0 then Error(EmptyPrediction)
        else FailurePrediction(FailureInference.Truncate(predictions[0]))
  }

  /** The request this route accepts, written as the JSON object the hosted
      handler receives. */
  function AsJson(data: SensorData): (j: FailureInference.Json)
    ensures j.JObject? && FailureInference.WellFormedRequest(j.fields)
  {
    var fields := map[
      "air_temp_K" := FailureInference.JNumber(data.airTempK),
      "process_temp_K" := FailureInference.JNumber(data.processTempK),
      "rotational_speed_rpm" := FailureInference.JNumber(data.rotationalSpeedRpm as real),
      "torque_Nm" := FailureInference.JNumber(data.torqueNm),
      "tool_wear_min" := FailureInference.JNumber(data.toolWearMin as real),
      "type" := FailureInference.JString(data.machineType)];
    assert forall k :: 0 <= k < |FailureInference.FeatureKeys| ==> FailureInference.FeatureKeys[k] in fields;
    FailureInference.JObject(fields)
  }

  /** The two encoders of the same request agree on L, M and H and on the
      five numeric features; they part on any other type, which the hosted
      handler encodes as 1 ("M") while this route refuses it. */
  lemma EncodersAgree(data: SensorData, body: string, loads: string -> Option<FailureInference.Json>)
    requires loads(body) == Some(AsJson(data))
    ensures var hosted := FailureInference.InputFn(body, FailureInference.JsonContentType, loads);
            && hosted.Success?
            && (InputRow(data).Some? ==>
                  forall k :: 0 <= k < 6 ==> hosted.value[0][k] == FailureInference.JNumber(InputRow(data).value[k]))
            && (InputRow(data).None? ==> hosted.value[0][5] == FailureInference.JNumber(1.0))
  {
    FailureInference.InputFnContract(body, FailureInference.JsonContentType, loads);
    FailureInference.TypeEncoding(AsJson(data).fields["type"]);
  }
}
