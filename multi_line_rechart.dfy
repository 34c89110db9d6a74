/** The multi-line chart's data shaping: each in-range sample becomes a
    three-series point, and a legend click toggles one series' visibility. */
module MultiLineRechart {
  import opened Wrappers
  import opened StoreTypes

  datatype SampleType = RealPower | ReactivePower | FakePower

  datatype MultiSample = MultiSample(timestamp: int, realPower: real, reactivePower: real, fakePower: real)

  datatype LineConfig = LineConfig(kind: SampleType, name: string, stroke: string, active: bool)

  const InitialLineConfigs: seq<LineConfig> := [
    LineConfig(RealPower, "Real Power", "#5E73CE", true),
    LineConfig(ReactivePower, "Reactive Power", "#3490c9", true),
    LineConfig(FakePower, "Fake Power", "#07b36b", true)
  ]

  /** The initial configs: three entries, distinct types, all active. */
  lemma InitialConfigsShape()
    ensures |InitialLineConfigs| == 3
    ensures forall i, j :: 0 <= i < j < 3 ==> InitialLineConfigs[i].kind != InitialLineConfigs[j].kind
    ensures forall i :: 0 <= i < 3 ==> InitialLineConfigs[i].active
  {
  }

  /** `generateMultiSamplesFromPower`, in structure: one point per sample,
      same timestamp, real power the sample's value. The two synthetic
      series come from `reactiveOf` (of the value) and `fakeOf` (of the
      position), which stand for the source's trigonometry. */
  function GenerateMultiSamplesFromPower(samples: seq<Sample>, reactiveOf: real -> real, fakeOf: nat -> real): (r: seq<MultiSample>)
    ensures |r| == |samples|
    ensures forall i :: 0 <= i < |samples| ==>
      && r[i].timestamp == samples[i].timestamp && r[i].realPower == samples[i].value
      && r[i].reactivePower == reactiveOf(samples[i].value) && r[i].fakePower == fakeOf(i)
  {
    seq(|samples|, i requires 0 <= i < |samples| =>
      MultiSample(samples[i].timestamp, samples[i].value, reactiveOf(samples[i].value), fakeOf(i)))
  }

  /** One config after a click on the legend entry `key`. */
  function Toggle(config: LineConfig, key: Option<SampleType>): LineConfig {
    if key == Some(config.kind) then config.(active := !config.active) else config
  }

  /** The configs after a legend click: `active` flips exactly on the configs
      whose type is the clicked key; everything else is kept. */
  function ToggleLegend(configs: seq<LineConfig>, key: Option<SampleType>): (r: seq<LineConfig>)
    ensures |r| == |configs|
    ensures forall i :: 0 <= i < |configs| ==>
      && r[i].kind == configs[i].kind && r[i].name == configs[i].name && r[i].stroke == configs[i].stroke
      && r[i].active == (if key == Some(configs[i].kind) then !configs[i].active else configs[i].active)
    decreases |configs|
  {
    if configs == [] then []
    else [Toggle(configs[0], key)] + ToggleLegend(configs[1..], key)
  }

  /** Clicking the same entry twice restores the configs. */
  lemma {:induction false} ToggleTwiceRestores(configs: seq<LineConfig>, key: Option<SampleType>)
    ensures ToggleLegend(ToggleLegend(configs, key), key) == configs
  {
    var once := ToggleLegend(configs, key);
    var twice := ToggleLegend(once, key);
    assert |twice| == |configs|;
    forall i | 0 <= i < |configs| ensures twice[i] == configs[i] {
      assert once[i].kind == configs[i].kind;
    }
  }

  /** The chart's `multiSamples` and `lineConfigs` state cells. */
  class MultiLineRechartView {
    var multiSamples: seq<MultiSample>
    var lineConfigs: seq<LineConfig>

    constructor ()
      ensures multiSamples == [] && lineConfigs == InitialLineConfigs
    {
      multiSamples := [];
      lineConfigs := InitialLineConfigs;
    }

    /** The effect run when the in-range list changes: an empty list gives no
        points, any other list its three-series points. */
    method OnSamplesChanged(realPowerSamples: seq<Sample>, reactiveOf: real -> real, fakeOf: nat -> real)
      modifies this
      ensures multiSamples == GenerateMultiSamplesFromPower(realPowerSamples, reactiveOf, fakeOf)
      ensures |realPowerSamples| == 0 ==> multiSamples == []
      ensures lineConfigs == old(lineConfigs)
    {
      if |realPowerSamples| == 0 {
        multiSamples := [];
        return;
      }
      multiSamples := GenerateMultiSamplesFromPower(realPowerSamples, reactiveOf, fakeOf);
    }

    method HandleLegendClick(key: Option<SampleType>)
      modifies this
      ensures lineConfigs == ToggleLegend(old(lineConfigs), key)
      ensures multiSamples == old(multiSamples)
    {
      lineConfigs := ToggleLegend(lineConfigs, key);
    }
  }
}
