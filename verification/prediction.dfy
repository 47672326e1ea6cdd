/** The pure steps of `get_prediction`: the ten-value feature vector, its CSV
    request body, the parse of the comma-separated response and the choice of
    the predicted class. */
module Prediction {
  import opened Wrappers
  import opened Text
  import opened Decimal
  import opened Sensors
  import opened LineParser

  /** A feature: a raw sensor value (a Python float) or a severity (a Python int). */
  datatype Feature = Raw(x: real) | Level(code: nat)

  /** The class labels, in the order of the response's probabilities. */
  const ClassLabels: seq<string> := ["Normal", "Warning", "Critical"]

  /** The feature list built in `get_prediction`. */
  function FeatureVector(d: Reading): (fv: seq<Feature>)
    requires Complete(d)
    ensures |fv| == 10
    ensures forall k :: 0 <= k < 5 ==> fv[k] == Raw(d[SensorOrder[k]])
    ensures forall k :: 0 <= k < 5 ==> fv[k + 5] == Level(SensorState(SensorOrder[k], d[SensorOrder[k]]))
  {
    [ Raw(d[Temperature]), Raw(d[Voltage]), Raw(d[Current]), Raw(d[CpuUsage]), Raw(d[FanSpeed]),
      Level(SensorState(Temperature, d[Temperature])),
      Level(SensorState(Voltage, d[Voltage])),
      Level(SensorState(Current, d[Current])),
      Level(SensorState(CpuUsage, d[CpuUsage])),
      Level(SensorState(FanSpeed, d[FanSpeed])) ]
  }

  /** `str(feature)`: Python's float formatting for raw values is a parameter. */
  function FeatureText(f: Feature, floatText: real -> string): string {
    match f
    case Raw(x) => floatText(x)
    case Level(c) => IntText(c)
  }

  function FeatureTexts(fv: seq<Feature>, floatText: real -> string): (ts: seq<string>)
    ensures |ts| == |fv|
    ensures forall k :: 0 <= k < |fv| ==> ts[k] == FeatureText(fv[k], floatText)
  {
    if fv == [] then [] else [FeatureText(fv[0], floatText)] + FeatureTexts(fv[1..], floatText)
  }

  /** `','.join(map(str, features))`, the request body. */
  function RequestBody(d: Reading, floatText: real -> string): string
    requires Complete(d)
  {
    Join(FeatureTexts(FeatureVector(d), floatText), ",")
  }

  /** When float formatting never writes a comma and `float` reads back what
      `str` wrote for the five values of the reading, splitting the body on commas gives ten fields: the five raw
      values in order, then the five severities written as digits. */
  lemma RequestBodyRoundTrip(d: Reading, floatText: real -> string, toFloat: string -> Option<real>)
    requires Complete(d)
    requires forall x :: ',' !in floatText(x)
    requires forall s :: s in d ==> toFloat(floatText(d[s])) == Some(d[s])
    ensures var pieces := SplitOn(RequestBody(d, floatText), ",");
            |pieces| == 10 && FieldsReadBack(pieces, d, toFloat)
  {
    var fv := FeatureVector(d);
    assert forall k :: 0 <= k < |fv| && fv[k].Raw? ==> toFloat(floatText(fv[k].x)) == Some(fv[k].x);
    BodySplitsIntoTexts(fv, floatText);
    TextsReadBack(fv, floatText, toFloat);
  }

  /** The ten fields of a request read back as the reading: the first five
      through `float` as the raw values in sensor order, the last five through
      `int` as the grades of the same sensors. */
  predicate FieldsReadBack(pieces: seq<string>, d: Reading, toFloat: string -> Option<real>)
    requires Complete(d) && |pieces| == 10
  {
    && (forall k :: 0 <= k < 5 ==> toFloat(pieces[k]) == Some(d[SensorOrder[k]]))
    && (forall k :: 0 <= k < 5 ==> ParseInt(pieces[k + 5]) == Some(SensorState(SensorOrder[k], d[SensorOrder[k]])))
  }

  /** Each feature text reads back as its feature: raw values through
      `float`, severities through `int`. */
  lemma TextsReadBack(fv: seq<Feature>, floatText: real -> string, toFloat: string -> Option<real>)
    requires forall k :: 0 <= k < |fv| && fv[k].Raw? ==> toFloat(floatText(fv[k].x)) == Some(fv[k].x)
    ensures forall k :: 0 <= k < |fv| && fv[k].Raw? ==> toFloat(FeatureTexts(fv, floatText)[k]) == Some(fv[k].x)
    ensures forall k :: 0 <= k < |fv| && fv[k].Level? ==> ParseInt(FeatureTexts(fv, floatText)[k]) == Some(fv[k].code)
  {
    forall k | 0 <= k < |fv| && fv[k].Level?
      ensures ParseInt(FeatureTexts(fv, floatText)[k]) == Some(fv[k].code)
    {
      IntTextRoundTrip(fv[k].code);
    }
  }

  /** Joining comma-free feature texts and splitting on commas gives them back. */
  lemma BodySplitsIntoTexts(fv: seq<Feature>, floatText: real -> string)
    requires |fv| >= 1
    requires forall x :: ',' !in floatText(x)
    ensures SplitOn(Join(FeatureTexts(fv, floatText), ","), ",") == FeatureTexts(fv, floatText)
  {
    var ts := FeatureTexts(fv, floatText);
    forall k | 0 <= k < |ts| ensures ',' !in ts[k] {
      FeatureTextCommaFree(fv[k], floatText);
    }
    assert "," == [','];
    SplitJoin(ts, ',');
  }

  /** `str` of a severity is digits only, and raw values are written without commas. */
  lemma FeatureTextCommaFree(f: Feature, floatText: real -> string)
    requires forall x :: ',' !in floatText(x)
    ensures ',' !in FeatureText(f, floatText)
  {
    match f
    case Raw(x) =>
    case Level(c) =>
      var t := IntText(c);
      assert forall k :: 0 <= k < |t| ==> t[k] != ',';
  }

  /** `[float(p) for p in pieces]`; None when some piece is not a number. */
  function ParseNumbers(pieces: seq<string>, toFloat: string -> Option<real>): (r: Option<seq<real>>)
    ensures r.Some? ==> |r.value| == |pieces|
    ensures r.Some? ==> forall k :: 0 <= k < |pieces| ==> toFloat(pieces[k]) == Some(r.value[k])
    ensures r.None? <==> exists k :: 0 <= k < |pieces| && toFloat(pieces[k]).None?
  {
    if pieces == [] then Some([])
    else
      match toFloat(pieces[0])
      case None => None
      case Some(x) =>
        match ParseNumbers(pieces[1..], toFloat)
        case None => None
        case Some(xs) => Some([x] + xs)
  }

  /** The response body, stripped and split on commas, read as numbers. */
  function Probabilities(body: string, toFloat: string -> Option<real>): (r: Option<seq<real>>)
    ensures r.Some? ==> |r.value| >= 1
  {
    ParseNumbers(SplitOn(Trim(body), ","), toFloat)
  }

  /** `max(ps)` */
  function Max(ps: seq<real>): (m: real)
    requires |ps| > 0
    ensures m in ps
    ensures forall k :: 0 <= k < |ps| ==> ps[k] <= m
  {
    if |ps| == 1 then ps[0]
    else
      var m := Max(ps[..|ps| - 1]);
      assert forall k :: 0 <= k < |ps| - 1 ==> ps[..|ps| - 1][k] == ps[k];
      if ps[|ps| - 1] > m then ps[|ps| - 1] else m
  }

  /** `ps.index(x)`: the first index holding x. */
  function IndexOfValue(ps: seq<real>, x: real): (i: nat)
    requires x in ps
    ensures i < |ps| && ps[i] == x
    ensures forall k :: 0 <= k < i ==> ps[k] != x
  {
    if ps[0] == x then 0 else 1 + IndexOfValue(ps[1..], x)
  }

  /** `ps.index(max(ps))`: the first position of a largest probability. */
  function ArgMax(ps: seq<real>): nat
    requires |ps| > 0
  {
    IndexOfValue(ps, Max(ps))
  }

  /** ArgMax picks a largest value, and every earlier value is strictly
      smaller: on a tie the earlier class wins. */
  lemma ArgMaxIsFirstMaximum(ps: seq<real>)
    requires |ps| > 0
    ensures ArgMax(ps) < |ps|
    ensures forall k :: 0 <= k < |ps| ==> ps[k] <= ps[ArgMax(ps)]
    ensures forall k :: 0 <= k < ArgMax(ps) ==> ps[k] < ps[ArgMax(ps)]
  {
  }

  lemma ArgMaxTie()
    ensures ArgMax([0.4, 0.4, 0.2]) == 0
  {
    ArgMaxIsFirstMaximum([0.4, 0.4, 0.2]);
  }
}
