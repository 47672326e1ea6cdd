/** The request and response handlers of the failure-prediction model served
    behind the hosted endpoint: `input_fn`, `predict_fn` and `output_fn`. */
module FailureInference {
  import opened Wrappers
  import opened Decimal

  /** A decoded JSON value. */
  datatype Json =
    | JNull
    | JBool(b: bool)
    | JNumber(n: real)
    | JString(s: string)
    | JArray(items: seq<Json>)
    | JObject(fields: map<string, Json>)

  datatype InferenceError =
    | UnsupportedContentType(contentType: string)  // ValueError
    | MalformedJson                                // json.loads raised
    | NotAnObject                                  // TypeError indexing a non-object
    | MissingKey(key: string)                      // KeyError
    | UnhashableType                               // TypeError: a list or object as the type
    | EmptyPrediction                              // IndexError on prediction[0]
    | ModelFailed                                  // model.predict raised

  const JsonContentType: string := "application/json"

  /** The numeric features of a request, in the order of the model's columns. */
  const FeatureKeys: seq<string> :=
    ["air_temp_K", "process_temp_K", "rotational_speed_rpm", "torque_Nm", "tool_wear_min"]

  const TypeKey: string := "type"

  /** `type_mapping` */
  const TypeMapping: map<string, int> := map["L" := 0, "M" := 1, "H" := 2]

  /** `type_mapping.get(t, 1)`: a known string maps through the table, a list or
      object cannot be looked up, anything else falls back to 1 ("M"). */
  function TypeCodeOrDefault(t: Json): (r: Result<int, InferenceError>)
    ensures r.Failure? <==> t.JArray? || t.JObject?
    ensures r.Failure? ==> r.error == UnhashableType
    ensures r.Success? ==> 0 <= r.value <= 2
  {
    match t
    case JArray(_) => Failure(UnhashableType)
    case JObject(_) => Failure(UnhashableType)
    case JString(s) => Success(if s in TypeMapping then TypeMapping[s] else 1)
    case _ => Success(1)
  }

  /** The first feature key the object lacks, if any. */
  function FirstMissing(fields: map<string, Json>, keys: seq<string>): (r: Option<string>)
    ensures r.None? <==> forall k :: 0 <= k < |keys| ==> keys[k] in fields
    ensures r.Some? ==> r.value !in fields && r.value in keys
  {
    if keys == [] then None
    else if keys[0] !in fields then Some(keys[0])
    else FirstMissing(fields, keys[1..])
  }

  /** `input_fn`: check the content type, decode the body (`loads` stands for
      `json.loads`), encode the machine type and build a one-row matrix. */
  function InputFn(body: string, contentType: string, loads: string -> Option<Json>): (r: Result<seq<seq<Json>>, InferenceError>)
    ensures contentType != JsonContentType ==> r == Failure(UnsupportedContentType(contentType))
    ensures r.Success? ==> |r.value| == 1 && |r.value[0]| == 6
  {
    if contentType != JsonContentType then Failure(UnsupportedContentType(contentType))
    else
      match loads(body)
      case None => Failure(MalformedJson)
      case Some(data) =>
        if !data.JObject? then Failure(NotAnObject)
        else if TypeKey !in data.fields then Failure(MissingKey(TypeKey))
        else
          match TypeCodeOrDefault(data.fields[TypeKey])
          case Failure(e) => Failure(e)
          case Success(code) =>
            var fields := data.fields[TypeKey := JNumber(code as real)];
            match FirstMissing(fields, FeatureKeys)
            case Some(k) => Failure(MissingKey(k))
            case None =>
              Success([[fields[FeatureKeys[0]], fields[FeatureKeys[1]], fields[FeatureKeys[2]],
                        fields[FeatureKeys[3]], fields[FeatureKeys[4]], fields[TypeKey]]])
  }

  /** The machine type a decoded request carries, after encoding. */
  predicate WellFormedRequest(fields: map<string, Json>) {
    && TypeKey in fields
    && !fields[TypeKey].JArray? && !fields[TypeKey].JObject?
    && forall k :: 0 <= k < |FeatureKeys| ==> FeatureKeys[k] in fields
  }

  /** `input_fn` accepts exactly a JSON object with a hashable "type" and all
      five features; its result is one row of six values: the five features in
      order, then the encoded type. Any other content type is refused. */
  lemma InputFnContract(body: string, contentType: string, loads: string -> Option<Json>)
    ensures contentType != JsonContentType ==>
              InputFn(body, contentType, loads) == Failure(UnsupportedContentType(contentType))
    ensures InputFn(body, contentType, loads).Success? <==>
              contentType == JsonContentType && loads(body).Some? && loads(body).value.JObject?
              && WellFormedRequest(loads(body).value.fields)
    ensures InputFn(body, contentType, loads).Success? ==>
              var fields := loads(body).value.fields;
              var rows := InputFn(body, contentType, loads).value;
              && |rows| == 1 && |rows[0]| == 6
              && (forall k :: 0 <= k < 5 ==> rows[0][k] == fields[FeatureKeys[k]])
              && TypeCodeOrDefault(fields[TypeKey]).Success?
              && rows[0][5] == JNumber(TypeCodeOrDefault(fields[TypeKey]).value as real)
  {
    if contentType == JsonContentType && loads(body).Some? && loads(body).value.JObject? {
      var fields := loads(body).value.fields;
      if TypeKey in fields && TypeCodeOrDefault(fields[TypeKey]).Success? {
        var updated := fields[TypeKey := JNumber(TypeCodeOrDefault(fields[TypeKey]).value as real)];
        assert forall k :: 0 <= k < |FeatureKeys| ==> FeatureKeys[k] != TypeKey;
        assert forall k :: 0 <= k < |FeatureKeys| ==> (FeatureKeys[k] in updated <==> FeatureKeys[k] in fields);
      }
    }
  }

  /** The type letters encode as L -> 0, M -> 1, H -> 2; every other string,
      and every number, boolean or null, encodes as 1. */
  lemma TypeEncoding(t: Json)
    ensures t == JString("L") ==> TypeCodeOrDefault(t) == Success(0)
    ensures t == JString("M") ==> TypeCodeOrDefault(t) == Success(1)
    ensures t == JString("H") ==> TypeCodeOrDefault(t) == Success(2)
    ensures t.JString? && t.s !in {"L", "M", "H"} ==> TypeCodeOrDefault(t) == Success(1)
    ensures !t.JString? && !t.JArray? && !t.JObject? ==> TypeCodeOrDefault(t) == Success(1)
  {
  }

  /** `int(x)` for a float: truncation toward zero. */
  function Truncate(x: real): (n: int)
    ensures x >= 0.0 ==> 0 <= n && n as real <= x < n as real + 1.0
    ensures x < 0.0 ==> n <= 0 && n as real - 1.0 < x <= n as real
  {
    if x >= 0.0 then x.Floor else -((-x).Floor)
  }

  /** `predict_fn`: the model's first prediction as an int. `model` stands for
      `model.predict`; None means it raised. */
  function PredictFn(input: seq<seq<Json>>, model: seq<seq<Json>> -> Option<seq<real>>): (r: Result<int, InferenceError>)
    ensures r.Success? <==> model(input).Some? && |model(input).value| > 0
    ensures r.Success? ==> r.value == Truncate(model(input).value[0])
  {
    match model(input)
    case None => Failure(ModelFailed)
    case Some(predictions) =>
      if |predictions| == 0 then Failure(EmptyPrediction) else Success(Truncate(predictions[0]))
  }

  const ResponsePrefix: string := "{\"failure_prediction\": "
  const ResponseSuffix: string := "}"

  /** `output_fn`: `json.dumps({"failure_prediction": prediction})`. */
  function OutputFn(prediction: int, contentType: string): (r: Result<string, InferenceError>)
    ensures r.Success? <==> contentType == JsonContentType
    ensures r.Failure? ==> r.error == UnsupportedContentType(contentType)
    ensures r.Success? ==> |r.value| > |ResponsePrefix| + |ResponseSuffix|
                           && r.value[..|ResponsePrefix|] == ResponsePrefix
                           && r.value[|r.value| - |ResponseSuffix|..] == ResponseSuffix
  {
    if contentType == JsonContentType then Success(ResponsePrefix + IntText(prediction) + ResponseSuffix)
    else Failure(UnsupportedContentType(contentType))
  }

  /** A client's reading of a response: an object whose only key is
      "failure_prediction", holding an integer. */
  function ReadResponse(text: string): Option<int> {
    if |text| >= |ResponsePrefix| + |ResponseSuffix|
       && text[..|ResponsePrefix|] == ResponsePrefix
       && text[|text| - |ResponseSuffix|..] == ResponseSuffix
    then ParseInt(text[|ResponsePrefix|..|text| - |ResponseSuffix|])
    else None
  }

  /** `output_fn` refuses every content type but JSON, and for JSON writes an
      object that reads back as exactly the prediction it was given. */
  lemma OutputRoundTrip(prediction: int, contentType: string)
    ensures OutputFn(prediction, contentType).Success? <==> contentType == JsonContentType
    ensures contentType == JsonContentType ==>
              ReadResponse(OutputFn(prediction, contentType).value) == Some(prediction)
  {
    if contentType == JsonContentType {
      var text := OutputFn(prediction, contentType).value;
      var digits := IntText(prediction);
      assert text[..|ResponsePrefix|] == ResponsePrefix;
      assert text[|text| - |ResponseSuffix|..] == ResponseSuffix;
      assert text[|ResponsePrefix|..|text| - |ResponseSuffix|] == digits;
      IntTextRoundTrip(prediction);
    }
  }
}
