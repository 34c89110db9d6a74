/** The charts' constant tables: plot size, the series cap, the default value
    axis, the time-range choices and the curve choices. */
module ChartOptions {
  import opened StoreTypes

  const CHART_WIDTH: int := 462
  const CHART_HEIGHT: int := 300
  /** The most points the Apex series keeps. */
  const MAX_READS: int := 300
  /** The default value axis, in watts. */
  const Y_MIN: real := -100.0
  const Y_MAX: real := 1100.0

  datatype TimeRangeOption = TimeRangeOption(name: string, value: int)

  const TimeRangeOptions: seq<TimeRangeOption> := [
    TimeRangeOption("Last 10s", 10),
    TimeRangeOption("Last 30s", 30),
    TimeRangeOption("Last 1m", 60),
    TimeRangeOption("Last 2m", 120),
    TimeRangeOption("Last 5m", 300),
    TimeRangeOption("Last 30m", 1800),
    TimeRangeOption("Last 1h", 3600),
    TimeRangeOption("Last 2h", 7200),
    TimeRangeOption("Last 5h", 18000)
  ]

  const CurveTypes: seq<Curve> := [Basis, Monotone, Natural]

  /** The option values are positive and strictly increasing, and the
      select's fallback (300) and the store's default (120) are among them. */
  lemma TimeRangeOptionsOrdered()
    ensures forall i :: 0 <= i < |TimeRangeOptions| ==> TimeRangeOptions[i].value > 0
    ensures forall i, j :: 0 <= i < j < |TimeRangeOptions| ==> TimeRangeOptions[i].value < TimeRangeOptions[j].value
    ensures exists i :: 0 <= i < |TimeRangeOptions| && TimeRangeOptions[i].value == 300
    ensures exists i :: 0 <= i < |TimeRangeOptions| && TimeRangeOptions[i].value == 120
  {
    assert TimeRangeOptions[4].value == 300 && TimeRangeOptions[3].value == 120;
  }

  /** The value axis is a proper interval and the cap is positive. */
  lemma AxisAndCapBounds()
    ensures Y_MIN < Y_MAX && MAX_READS == 300 && MAX_READS > 0
  {
  }

  /** `curveTypes` lists every curve exactly once. */
  lemma CurveTypesComplete()
    ensures |CurveTypes| == 3
    ensures forall c: Curve :: c in CurveTypes
    ensures forall i, j :: 0 <= i < j < |CurveTypes| ==> CurveTypes[i] != CurveTypes[j]
  {
    forall c: Curve ensures c in CurveTypes {
      match c
      case Basis => assert CurveTypes[0] == c;
      case Monotone => assert CurveTypes[1] == c;
      case Natural => assert CurveTypes[2] == c;
    }
  }
}
