/** The deterministic part of the synthetic training-data generator: the two
    correlation adjustments applied to the sampled columns, the five
    per-sensor warning labels and the three-level `cpu_state`. */
module SyntheticData {

  /** One sampled row of the frame. */
  datatype Sample = Sample(temperature: real, voltage: real, current: real, cpuUsage: real, fanSpeed: real)

  /** The five 0/1 warning labels of a row. */
  datatype Labels = Labels(temp: nat, voltage: nat, current: nat, usage: nat, fan: nat)

  /** One row of the finished frame: adjusted values, labels, state. */
  datatype LabelledRow = LabelledRow(sample: Sample, labels: Labels, cpuState: nat)

  /** The correlations: fan speed rises with temperature, current with CPU usage. */
  function Correlated(s: Sample): (c: Sample)
    ensures c.temperature == s.temperature && c.voltage == s.voltage && c.cpuUsage == s.cpuUsage
    ensures c.fanSpeed - s.fanSpeed == 10.0 * s.temperature
    ensures c.current - s.current == 0.05 * s.cpuUsage
  {
    s.(fanSpeed := s.fanSpeed + s.temperature * 10.0, current := s.current + s.cpuUsage * 0.05)
  }

  /** `astype(int)` of a boolean column. */
  function Flag(b: bool): (n: nat)
    ensures n <= 1 && (n == 1 <==> b)
  {
    if b then 1 else 0
  }

  /** The warning labels, all with strict comparisons. */
  function LabelsOf(s: Sample): Labels {
    Labels(
      Flag(s.temperature > 85.0),
      Flag(s.voltage < 10.0 || s.voltage > 14.0),
      Flag(s.current > 13.0),
      Flag(s.cpuUsage > 90.0),
      Flag(s.fanSpeed < 1500.0))
  }

  /** The number of labels a sample raises (the row sum of the five label columns). */
  function WarningCount(s: Sample): nat {
    var l := LabelsOf(s);
    l.temp + l.voltage + l.current + l.usage + l.fan
  }

  /** The intended state: no warning is Normal, one is Warning, more is Critical. */
  function CpuState(warnings: nat): (state: nat)
    ensures state <= 2
    ensures state == 0 <==> warnings == 0
    ensures state == 1 <==> warnings == 1
    ensures state == 2 <==> warnings >= 2
  {
    if warnings >= 2 then 2 else warnings
  }

  /** Each label is raised exactly when its sensor crosses its bound, strictly:
      a voltage of exactly 10 or exactly 14 raises nothing, and a row with
      exactly 85 degrees, 13 A, 90 % or 1500 RPM is not flagged either. */
  lemma LabelThresholds(s: Sample)
    ensures LabelsOf(s).temp == 1 <==> s.temperature > 85.0
    ensures LabelsOf(s).voltage == 1 <==> s.voltage < 10.0 || s.voltage > 14.0
    ensures LabelsOf(s).current == 1 <==> s.current > 13.0
    ensures LabelsOf(s).usage == 1 <==> s.cpuUsage > 90.0
    ensures LabelsOf(s).fan == 1 <==> s.fanSpeed < 1500.0
    ensures WarningCount(s) <= 5
  {
  }

  lemma BoundaryValuesRaiseNothing()
    ensures WarningCount(Sample(85.0, 10.0, 13.0, 90.0, 1500.0)) == 0
    ensures WarningCount(Sample(85.0, 14.0, 13.0, 90.0, 1500.0)) == 0
  {
  }

  /** The state never decreases as more labels are raised. */
  lemma CpuStateMonotone(m: nat, n: nat)
    requires m <= n
    ensures CpuState(m) <= CpuState(n)
  {
  }

  /** The labels are read off the adjusted columns: a 20-degree row sampled at
      1400 RPM is not a fan warning, since its fan speed becomes 1600. */
  lemma LabelsSeeAdjustedValues()
    ensures LabelsOf(Sample(20.0, 12.0, 10.0, 50.0, 1400.0)).fan == 1
    ensures LabelsOf(Correlated(Sample(20.0, 12.0, 10.0, 50.0, 1400.0))).fan == 0
  {
  }

  /** The two column updates, applied row by row in place. */
  method AddCorrelations(df: array<Sample>)
    modifies df
    ensures forall i :: 0 <= i < df.Length ==> df[i] == Correlated(old(df[i]))
  {
    var i := 0;
    while i < df.Length
      invariant 0 <= i <= df.Length
      invariant forall k :: 0 <= k < i ==> df[k] == Correlated(old(df[k]))
      invariant forall k :: i <= k < df.Length ==> df[k] == old(df[k])
    {
      df[i] := Correlated(df[i]);
      i := i + 1;
    }
  }

  /** The `cpu_state` column: every row starts at 0, rows with at least one
      warning are set to 1, then rows with at least two are set to 2. */
  method CpuStates(warnings: seq<nat>) returns (state: array<nat>)
    ensures state.Length == |warnings|
    ensures forall i :: 0 <= i < |warnings| ==> state[i] == CpuState(warnings[i])
  {
    state := new nat[|warnings|](_ => 0);
    var i := 0;
    while i < |warnings|
      invariant 0 <= i <= |warnings|
      invariant forall k :: 0 <= k < i ==> state[k] == (if warnings[k] >= 1 then 1 else 0)
      invariant forall k :: i <= k < |warnings| ==> state[k] == 0
    {
      if warnings[i] >= 1 {
        state[i] := 1;
      }
      i := i + 1;
    }
    i := 0;
    while i < |warnings|
      invariant 0 <= i <= |warnings|
      invariant forall k :: 0 <= k < i ==> state[k] == CpuState(warnings[k])
      invariant forall k :: i <= k < |warnings| ==> state[k] == (if warnings[k] >= 1 then 1 else 0)
    {
      if warnings[i] >= 2 {
        state[i] := 2;
      }
      i := i + 1;
    }
  }

  /** The finished row for one adjusted sample. */
  function LabelRow(s: Sample): LabelledRow {
    LabelledRow(s, LabelsOf(s), CpuState(WarningCount(s)))
  }

  /** The number of raised labels of every row, in order. */
  method CountWarnings(df: array<Sample>) returns (warnings: seq<nat>)
    ensures |warnings| == df.Length
    ensures forall k :: 0 <= k < df.Length ==> warnings[k] == WarningCount(df[k])
  {
    warnings := [];
    var i := 0;
    while i < df.Length
      invariant 0 <= i <= df.Length && |warnings| == i
      invariant forall k :: 0 <= k < i ==> warnings[k] == WarningCount(df[k])
    {
      warnings := warnings + [WarningCount(df[i])];
      i := i + 1;
    }
  }

  /** Lines 35-46 of the generator: the labels and the state of every row. */
  method LabelRows(df: array<Sample>) returns (rows: seq<LabelledRow>)
    ensures |rows| == df.Length
    ensures forall k :: 0 <= k < df.Length ==> rows[k] == LabelRow(df[k])
  {
    var warnings := CountWarnings(df);
    var state := CpuStates(warnings);
    rows := [];
    var i := 0;
    while i < df.Length
      invariant 0 <= i <= df.Length && |rows| == i
      invariant forall k :: 0 <= k < i ==> rows[k] == LabelRow(df[k])
    {
      assert state[i] == CpuState(warnings[i]);
      rows := rows + [LabelledRow(df[i], LabelsOf(df[i]), state[i])];
      i := i + 1;
    }
  }

  /** Lines 31-46 of the generator: adjust the frame in place, then label
      every row. Each row of the frame yields exactly one labelled row, whose
      labels are read off the adjusted values. */
  method GenerateLabels(df: array<Sample>) returns (rows: seq<LabelledRow>)
    modifies df
    ensures forall k :: 0 <= k < df.Length ==> df[k] == Correlated(old(df[k]))
    ensures |rows| == df.Length
    ensures forall k :: 0 <= k < df.Length ==> rows[k] == LabelRow(Correlated(old(df[k])))
  {
    AddCorrelations(df);
    rows := LabelRows(df);
  }
}
