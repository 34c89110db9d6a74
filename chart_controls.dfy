/** The sample and settings controls: populate the log with a generated
    batch, append one sample, and the fallbacks the selects apply before they
    dispatch. The clock and the random draws are parameters. */
module ChartControls {
  import opened Wrappers
  import opened StoreTypes
  import SampleAction
  import ChartOptions
  import AppReducer
  import SamplesSelector

  /** How many samples the populate loop makes: `i` runs while
      `i < xRange / 2`, so ceil(xRange / 2) of them for a positive range. */
  function PointCount(xRange: int): (n: nat)
    ensures 2 * n >= xRange
    ensures n == 0 || 2 * (n - 1) < xRange
  {
    if xRange <= 0 then 0 else (xRange + 1) / 2
  }

  /** The batch the populate loop makes: sample `i` is taken 2 s before
      sample `i - 1`, starting at `time`, with the `i`-th random draw. */
  predicate IsPopulatedBatch(batch: seq<Sample>, time: int, xRange: int, random: nat -> real) {
    && |batch| == PointCount(xRange)
    && forall i :: 0 <= i < |batch| ==> batch[i] == Sample(time - i * 2000, random(i))
  }

  /** `populateChart`: first replaces the log with the empty batch, then
      with the generated one. Returns the actions it dispatches, in order. */
  method PopulateChart(time: int, xRange: int, random: nat -> real) returns (dispatched: seq<Action>)
    ensures |dispatched| == 2 && dispatched[0] == SampleAction.SaveSamples([])
    ensures dispatched[1].kind == SampleAction.SET_SAMPLES && dispatched[1].payload.SampleBatch?
    ensures IsPopulatedBatch(dispatched[1].payload.batch, time, xRange, random)
  {
    var clear := SampleAction.SaveSamples([]);
    var samples: seq<Sample> := [];
    var i := 0;
    while 2 * i < xRange
      invariant 0 <= i && |samples| == i
      invariant i == 0 || 2 * (i - 1) < xRange
      invariant forall k :: 0 <= k < i ==> samples[k] == Sample(time - k * 2000, random(k))
      decreases xRange - 2 * i
    {
      samples := samples + [Sample(time - i * 2000, random(i))];
      i := i + 1;
    }
    dispatched := [clear, SampleAction.SaveSamples(samples)];
  }

  /** A populated batch is strictly decreasing in time and lies inside the
      window `[time - xRange*1000, time]` at the moment it is made. */
  lemma {:induction false} PopulatedBatchInWindow(batch: seq<Sample>, time: int, xRange: int, random: nat -> real)
    requires IsPopulatedBatch(batch, time, xRange, random)
    ensures forall i, j :: 0 <= i < j < |batch| ==> batch[i].timestamp > batch[j].timestamp
    ensures forall i :: 0 <= i < |batch| ==> time - xRange * 1000 < batch[i].timestamp <= time
  {
    forall i | 0 <= i < |batch| ensures time - xRange * 1000 < batch[i].timestamp {
      assert 2 * i < xRange;
    }
  }

  /** Dispatching what `populateChart` returns leaves exactly the generated
      batch in the log, the settings untouched, and every generated sample
      inside the window the selector applies at generation time. */
  lemma {:induction false} PopulatedLogIsInRange(s: AppReducer.AppState, batch: seq<Sample>, time: int, xRange: int, random: nat -> real)
    requires IsPopulatedBatch(batch, time, xRange, random)
    ensures var r := AppReducer.DispatchAll(s, [SampleAction.SaveSamples([]), SampleAction.SaveSamples(batch)]);
      && r.samples.samples == batch && r.settings == s.settings
      && SamplesSelector.InRange(r.samples.samples, xRange, time) == batch
  {
    AppReducer.ClearThenReplace(s, batch);
    PopulatedBatchInWindow(batch, time, xRange, random);
    SamplesSelector.InRangeKeepsAll(batch, xRange, time);
  }

  /** The default range of five minutes populates 150 samples. */
  lemma PopulateCountExample()
    ensures PointCount(300) == 150 && PointCount(301) == 151 && PointCount(0) == 0
  {
  }

  /** `addSample`: appends one sample taken now, with a random value. */
  function AddSample(now: int, value: real): (a: Action)
    ensures a == SampleAction.AddSample([Sample(now, value)])
    ensures a.payload.batch[0].timestamp == now && |a.payload.batch| == 1
  {
    SampleAction.AddSample([Sample(now, value)])
  }

  /** The time-range select's `Number(value) || 300`: NaN (here `None`) and 0
      fall back to 300; any other number, negatives included, passes. */
  function TimeRangeFromSelect(parsed: Option<int>): (r: int)
    ensures parsed.None? || parsed == Some(0) ==> r == 300
    ensures parsed.Some? && parsed.value != 0 ==> r == parsed.value
  {
    if parsed.Some? && parsed.value != 0 then parsed.value else 300
  }

  /** Every listed option passes through the fallback unchanged. */
  lemma {:induction false} OptionsPassThrough()
    ensures forall i :: 0 <= i < |ChartOptions.TimeRangeOptions| ==>
      TimeRangeFromSelect(Some(ChartOptions.TimeRangeOptions[i].value)) == ChartOptions.TimeRangeOptions[i].value
  {
    ChartOptions.TimeRangeOptionsOrdered();
  }

  /** The option text of a curve. */
  function CurveValue(c: Curve): string {
    match c
    case Basis => "basis"
    case Monotone => "monotone"
    case Natural => "natural"
  }

  /** The curve select's `strToCurve[value] || 'monotone'`. */
  function CurveFromSelect(value: string): (c: Curve)
    ensures value !in {"basis", "monotone", "natural"} ==> c == Monotone
  {
    if value == "basis" then Basis
    else if value == "natural" then Natural
    else Monotone
  }

  /** Each curve's option text selects that curve, so the fallback never
      changes a listed choice. */
  lemma {:induction false} CurveRoundTrip(c: Curve)
    ensures CurveFromSelect(CurveValue(c)) == c
  {
    match c
    case Basis =>
    case Monotone => assert "monotone" != "basis" && "monotone" != "natural";
    case Natural => assert "natural" != "basis";
  }
}
