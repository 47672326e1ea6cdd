/** The five sensors of a reading and the static threshold table that grades a
    value as 0 (Normal), 1 (Warning) or 2 (Critical). */
module Sensors {

  datatype Sensor = Temperature | Voltage | Current | CpuUsage | FanSpeed

  /** The fixed order of the sensors in a reading and in the feature vector. */
  const SensorOrder: seq<Sensor> := [Temperature, Voltage, Current, CpuUsage, FanSpeed]

  const Normal: nat := 0
  const Warning: nat := 1
  const Critical: nat := 2

  /** A closed interval [lo, hi]. */
  datatype Interval = Interval(lo: real, hi: real) {
    predicate Holds(v: real) {
      lo <= v <= hi
    }
  }

  datatype Ranges = Ranges(normal: Interval, warning: Interval)

  function RangesOf(s: Sensor): Ranges {
    match s
    case Temperature => Ranges(Interval(0.0, 70.0), Interval(70.0, 85.0))
    case Voltage => Ranges(Interval(3.0, 3.6), Interval(2.7, 3.0))
    case Current => Ranges(Interval(0.0, 2.0), Interval(2.0, 2.5))
    case CpuUsage => Ranges(Interval(0.0, 70.0), Interval(70.0, 85.0))
    case FanSpeed => Ranges(Interval(1000.0, 2500.0), Interval(2500.0, 3000.0))
  }

  /** `get_sensor_state`: Normal inside the normal interval, else Warning inside
      the warning interval, else Critical. */
  function SensorState(s: Sensor, v: real): (r: nat)
    ensures r <= Critical
    ensures r == Normal <==> RangesOf(s).normal.Holds(v)
  {
    var ranges := RangesOf(s);
    if ranges.normal.Holds(v) then Normal
    else if ranges.warning.Holds(v) then Warning
    else Critical
  }

  /** The same grading written as a partition of the real line into disjoint
      pieces, read off from the table once and for all. */
  function BandOf(s: Sensor, v: real): nat {
    match s
    case Temperature => if v < 0.0 then 2 else if v <= 70.0 then 0 else if v <= 85.0 then 1 else 2
    case Voltage => if v < 2.7 then 2 else if v < 3.0 then 1 else if v <= 3.6 then 0 else 2
    case Current => if v < 0.0 then 2 else if v <= 2.0 then 0 else if v <= 2.5 then 1 else 2
    case CpuUsage => if v < 0.0 then 2 else if v <= 70.0 then 0 else if v <= 85.0 then 1 else 2
    case FanSpeed => if v < 1000.0 then 2 else if v <= 2500.0 then 0 else if v <= 3000.0 then 1 else 2
  }

  /** The threshold table grades every value as the partition does: shared
      boundaries go to Normal, values beyond both bands on either side are Critical. */
  lemma SensorStateIsBand(s: Sensor, v: real)
    ensures SensorState(s, v) == BandOf(s, v)
  {
  }

  /** Apart from voltage, whose warning band lies below the normal band, a
      larger value above the normal floor never grades lower. */
  lemma SensorStateMonotone(s: Sensor, v: real, w: real)
    requires s != Voltage && RangesOf(s).normal.lo <= v <= w
    ensures SensorState(s, v) <= SensorState(s, w)
  {
  }

  /** For voltage the order is reversed up to the top of the normal band. */
  lemma VoltageStateAntitone(v: real, w: real)
    requires v <= w <= 3.6
    ensures SensorState(Voltage, v) >= SensorState(Voltage, w)
  {
  }

  lemma BoundaryExamples()
    ensures SensorState(Voltage, 3.6) == Normal
    ensures SensorState(Voltage, 2.8) == Warning
    ensures SensorState(Voltage, 1.0) == Critical
    ensures SensorState(Temperature, 70.0) == Normal
    ensures SensorState(Temperature, 70.0000001) == Warning
    ensures SensorState(Voltage, 3.0) == Normal
    ensures SensorState(FanSpeed, 2500.0) == Normal
    ensures SensorState(Temperature, -1.0) == Critical
  {
  }
}
