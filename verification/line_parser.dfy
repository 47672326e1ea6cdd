/** Turning one decoded device line `Label: value unit | Label: value unit | ...`
    into a partial reading of the five sensors. */
module LineParser {
  import opened Wrappers
  import opened Text
  import opened Sensors

  /** A (possibly partial) reading: the sensors that were filled and their values. */
  type Reading = map<Sensor, real>

  const FieldSeparator: string := " | "

  /** A reading usable downstream holds all five sensors. */
  predicate Complete(d: Reading) {
    Temperature in d && Voltage in d && Current in d && CpuUsage in d && FanSpeed in d
  }

  lemma CompleteMeansAllSensors(d: Reading)
    ensures Complete(d) <==> forall s: Sensor :: s in d
  {
    if Complete(d) {
      forall s: Sensor ensures s in d {
        match s
        case Temperature =>
        case Voltage =>
        case Current =>
        case CpuUsage =>
        case FanSpeed =>
      }
    }
  }

  /** The word a label must contain to fill each slot, in matching priority. */
  function Keyword(s: Sensor): string {
    match s
    case Temperature => "temperature"
    case Voltage => "voltage"
    case Current => "current"
    case CpuUsage => "cpu"
    case FanSpeed => "fan"
  }

  /** The position of a sensor in SensorOrder. */
  function Priority(s: Sensor): (k: nat)
    ensures k < |SensorOrder| && SensorOrder[k] == s
  {
    match s
    case Temperature => 0
    case Voltage => 1
    case Current => 2
    case CpuUsage => 3
    case FanSpeed => 4
  }

  /** The source's "cpu usage" alternative adds nothing: a label containing
      "cpu usage" contains "cpu". */
  lemma CpuUsageNeedsCpu(key: string)
    ensures Contains(key, "cpu usage") ==> Contains(key, "cpu")
  {
    assert "cpu" + " usage" == "cpu usage";
    ContainsPrefixOfPattern(key, "cpu", " usage");
  }

  /** Likewise "fan speed" adds nothing to "fan". */
  lemma FanSpeedNeedsFan(key: string)
    ensures Contains(key, "fan speed") ==> Contains(key, "fan")
  {
    assert "fan" + " speed" == "fan speed";
    ContainsPrefixOfPattern(key, "fan", " speed");
  }

  /** The slot a lower-cased label fills (the matching chain of `read_sensor_data`). */
  function SlotFor(key: string): (r: Option<Sensor>)
    ensures r.Some? ==> Contains(key, Keyword(r.value))
  {
    CpuUsageNeedsCpu(key);
    FanSpeedNeedsFan(key);
    if Contains(key, "temperature") then Some(Temperature)
    else if Contains(key, "voltage") then Some(Voltage)
    else if Contains(key, "current") then Some(Current)
    else if Contains(key, "cpu usage") || Contains(key, "cpu") then Some(CpuUsage)
    else if Contains(key, "fan speed") || Contains(key, "fan") then Some(FanSpeed)
    else None
  }

  /** The label fills the slot of the first sensor, in the order temperature,
      voltage, current, cpu, fan, whose keyword it contains, and no slot when
      it contains none of them. */
  lemma SlotForFirstMatch(key: string)
    ensures SlotFor(key).Some? ==> Contains(key, Keyword(SlotFor(key).value))
    ensures SlotFor(key).Some? ==> forall s: Sensor :: Priority(s) < Priority(SlotFor(key).value) ==> !Contains(key, Keyword(s))
    ensures SlotFor(key).None? <==> forall s: Sensor :: !Contains(key, Keyword(s))
  {
    CpuUsageNeedsCpu(key);
    FanSpeedNeedsFan(key);
  }

  /** Substring matching makes "cpu temperature" a temperature label. */
  lemma CpuTemperatureIsTemperature()
    ensures SlotFor("cpu temperature") == Some(Temperature)
  {
    ContainsOccurs("cpu temperature", "temperature");
    assert OccursAt("cpu temperature", "temperature", 4);
  }

  /** What one ` | `-separated fragment does to the reading. */
  datatype FragmentOutcome =
    | NoColon                              // no ':' : ignored
    | MissingValue                         // nothing after ':' : IndexError, the read fails
    | NotANumber                           // first word not a float: ValueError, skipped
    | Unmatched                            // number, but no slot for the label
    | Assign(sensor: Sensor, value: real)  // the slot takes the value

  /** One fragment: cut at its first ':', then read the two sides. */
  function Fragment(part: string, toFloat: string -> Option<real>): (r: FragmentOutcome)
    ensures r == NoColon <==> ':' !in part
    ensures ':' in part ==>
              var c := FindChar(part, ':').value;
              r == Field(part[..c], part[c + 1..], toFloat) && ':' !in part[..c]
  {
    match FindChar(part, ':')
    case None => NoColon
    case Some(c) => Field(part[..c], part[c + 1..], toFloat)
  }

  /** The two sides of a fragment: strip and lower-case the label, read the
      first word of the value as a float, then look the label up. */
  function Field(name: string, value: string, toFloat: string -> Option<real>): (r: FragmentOutcome)
    ensures r != NoColon
    ensures r == MissingValue <==> AllSpace(value)
    ensures r == NotANumber <==> FirstWord(value).Some? && toFloat(FirstWord(value).value).None?
    ensures r == Unmatched <==>
              FirstWord(value).Some? && toFloat(FirstWord(value).value).Some? && SlotFor(Lower(Trim(name))).None?
    ensures r.Assign? ==> SlotFor(Lower(Trim(name))) == Some(r.sensor) && toFloat(FirstWord(value).value) == Some(r.value)
  {
    match FirstWord(value)
    case None => MissingValue
    case Some(word) =>
      match toFloat(word)
      case None => NotANumber
      case Some(v) =>
        match SlotFor(Lower(Trim(name)))
        case None => Unmatched
        case Some(s) => Assign(s, v)
  }

  function Fragments(parts: seq<string>, toFloat: string -> Option<real>): (os: seq<FragmentOutcome>)
    ensures |os| == |parts|
  {
    seq(|parts|, k requires 0 <= k < |parts| => Fragment(parts[k], toFloat))
  }

  predicate Sets(o: FragmentOutcome, s: Sensor) {
    o.Assign? && o.sensor == s
  }

  function Absorb(d: Reading, o: FragmentOutcome): Option<Reading> {
    match o
    case MissingValue => None
    case Assign(s, v) => Some(d[s := v])
    case _ => Some(d)
  }

  /** The reading built from the fragments' outcomes, left to right; None when
      one of them raised IndexError. */
  function Fold(os: seq<FragmentOutcome>): Option<Reading>
    decreases |os|
  {
    if os == [] then Some(map[])
    else
      match Fold(os[..|os| - 1])
      case None => None
      case Some(d) => Absorb(d, os[|os| - 1])
  }

  /** The parse of a whole line: strip it, split it on " | ", fold the fragments. */
  function ParseLineSpec(line: string, toFloat: string -> Option<real>): Option<Reading> {
    Fold(Fragments(SplitOn(Trim(line), FieldSeparator), toFloat))
  }

  /** `read_sensor_data` on one decoded line: strip it, cut it into fragments
      and fill the reading from what each fragment says. */
  method ParseLine(line: string, toFloat: string -> Option<real>) returns (data: Option<Reading>)
    ensures data == ParseLineSpec(line, toFloat)
  {
    var parts := SplitOn(Trim(line), FieldSeparator);
    data := FillReading(Fragments(parts, toFloat));
  }

  /** The loop of `read_sensor_data`: the reading is filled in place, fragment
      by fragment; a later value for a slot overwrites an earlier one and the
      first IndexError abandons the read. */
  method FillReading(os: seq<FragmentOutcome>) returns (data: Option<Reading>)
    ensures data == Fold(os)
  {
    var d: Reading := map[];
    var i := 0;
    while i < |os|
      invariant 0 <= i <= |os|
      invariant Fold(os[..i]) == Some(d)
    {
      FoldStep(os, i);
      match os[i] {
        case MissingValue =>
          FailureIsFinal(os, i + 1);
          return None;
        case Assign(s, v) =>
          d := d[s := v];
        case _ =>
      }
      i := i + 1;
    }
    assert os[..i] == os;
    return Some(d);
  }

  /** One more fragment folded into the reading. */
  lemma FoldStep(os: seq<FragmentOutcome>, i: nat)
    requires i < |os|
    ensures Fold(os[..i + 1]) == if Fold(os[..i]).None? then None else Absorb(Fold(os[..i]).value, os[i])
  {
    assert os[..i + 1][..i] == os[..i];
  }

  /** Once a fragment has raised, no later fragment can rescue the read. */
  lemma {:induction false} FailureIsFinal(os: seq<FragmentOutcome>, n: nat)
    requires n <= |os| && Fold(os[..n]).None?
    ensures Fold(os).None?
    decreases |os| - n
  {
    if n < |os| {
      assert os[..n + 1][..n] == os[..n];
      FailureIsFinal(os, n + 1);
    } else {
      assert os[..n] == os;
    }
  }

  /** The read fails exactly when some fragment has a ':' and nothing after it. */
  lemma {:induction false} FoldFailsIff(os: seq<FragmentOutcome>)
    ensures Fold(os).None? <==> exists k :: 0 <= k < |os| && os[k] == MissingValue
    decreases |os|
  {
    if os != [] {
      var init := os[..|os| - 1];
      FoldFailsIff(init);
      assert forall k :: 0 <= k < |init| ==> init[k] == os[k];
    }
  }

  /** A sensor is in a successful parse exactly when some fragment assigns it. */
  lemma {:induction false} FoldKeys(os: seq<FragmentOutcome>, s: Sensor)
    requires Fold(os).Some?
    ensures s in Fold(os).value <==> exists k :: 0 <= k < |os| && Sets(os[k], s)
    decreases |os|
  {
    if os != [] {
      var init := os[..|os| - 1];
      FoldKeys(init, s);
      assert forall k :: 0 <= k < |init| ==> init[k] == os[k];
      if Sets(os[|os| - 1], s) {
        assert 0 <= |os| - 1 < |os|;
      }
    }
  }

  /** Later fragments overwrite earlier ones: the value of a sensor is the one
      carried by the last fragment that assigns it. */
  lemma {:induction false} LastAssignmentWins(os: seq<FragmentOutcome>, i: nat, s: Sensor, v: real)
    requires Fold(os).Some?
    requires i < |os| && os[i] == Assign(s, v)
    requires forall j :: i < j < |os| ==> !Sets(os[j], s)
    ensures s in Fold(os).value && Fold(os).value[s] == v
    decreases |os|
  {
    var init := os[..|os| - 1];
    if i < |os| - 1 {
      assert forall k :: 0 <= k < |init| ==> init[k] == os[k];
      LastAssignmentWins(init, i, s, v);
      assert !Sets(os[|os| - 1], s);
    }
  }

  /** A fragment that neither assigns nor raises leaves the result exactly as
      it would be without that fragment. */
  lemma {:induction false} SkippedFragmentHarmless(a: seq<FragmentOutcome>, x: FragmentOutcome, b: seq<FragmentOutcome>)
    requires x.NoColon? || x.NotANumber? || x.Unmatched?
    ensures Fold(a + [x] + b) == Fold(a + b)
    decreases |b|
  {
    if b == [] {
      assert (a + [x] + b)[..|a + [x] + b| - 1] == a;
      assert a + b == a;
    } else {
      var b' := b[..|b| - 1];
      SkippedFragmentHarmless(a, x, b');
      assert (a + [x] + b)[..|a + [x] + b| - 1] == a + [x] + b';
      assert (a + b)[..|a + b| - 1] == a + b';
    }
  }
}
