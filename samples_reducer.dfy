/** The sample store: an append/replace state transition over the sample log. */
module SampleReducer {
  import opened Wrappers
  import opened StoreTypes
  import SampleAction

  /** The slice state: `{ samples: Sample[] }`. */
  datatype State = State(samples: seq<Sample>)

  /** The slice's initial state: the empty log. */
  const VoidSampleState: State := State([])

  /** Append: the old log followed by the batch. */
  function AddSample(state: seq<Sample>, batch: seq<Sample>): (r: seq<Sample>)
    ensures |r| == |state| + |batch|
    ensures r[..|state|] == state && r[|state|..] == batch
    ensures multiset(r) == multiset(state) + multiset(batch)
  {
    state + batch
  }

  /** Replace: the payload, or the empty log when the payload is absent; the
      prior log plays no part. */
  function SetSamples(state: seq<Sample>, payload: Payload): (r: seq<Sample>)
    requires payload.SampleBatch? || payload.Absent?
    ensures payload.SampleBatch? ==> r == payload.batch
    ensures payload.Absent? ==> r == []
  {
    if payload.SampleBatch? then payload.batch else []
  }

  /** The log reducer; `None` is the undefined state Redux starts from. */
  function Reduce(state: Option<seq<Sample>>, action: Action): (r: seq<Sample>)
    requires SampleAction.Typed(action)
    ensures action.kind == SampleAction.ADD_SAMPLE ==>
      var s := state.GetOr([]); |r| == |s| + |action.payload.batch| && r[..|s|] == s && r[|s|..] == action.payload.batch
    ensures action.kind == SampleAction.SET_SAMPLES ==>
      r == (if action.payload.SampleBatch? then action.payload.batch else [])
    ensures action.kind != SampleAction.ADD_SAMPLE && action.kind != SampleAction.SET_SAMPLES ==> r == state.GetOr([])
  {
    SampleAction.TagsDistinct();
    var s := state.GetOr([]);
    if action.kind == SampleAction.ADD_SAMPLE then AddSample(s, action.payload.batch)
    else if action.kind == SampleAction.SET_SAMPLES then SetSamples(s, action.payload)
    else s
  }

  /** The combined slice reducer `{ samples: sampleReducer }`. */
  function SamplesReducer(state: Option<State>, action: Action): (r: State)
    requires SampleAction.Typed(action)
    ensures r.samples == Reduce(Some(state.GetOr(VoidSampleState).samples), action)
  {
    State(Reduce(if state.Some? then Some(state.value.samples) else None, action))
  }

  /** An append keeps every existing entry in place, duplicates included,
      and adds the batch behind it. */
  lemma AppendExtends(log: seq<Sample>, batch: seq<Sample>)
    ensures var r := Reduce(Some(log), SampleAction.AddSample(batch));
      r == log + batch && r[..|log|] == log
      && multiset(r) == multiset(log) + multiset(batch)
  {
  }

  /** A replace yields exactly the batch, whatever the prior log, and doing it
      twice is the same as doing it once. */
  lemma ReplaceIgnoresPriorAndIsIdempotent(log: seq<Sample>, batch: seq<Sample>)
    ensures Reduce(Some(log), SampleAction.SaveSamples(batch)) == batch
    ensures var once := Reduce(Some(log), SampleAction.SaveSamples(batch));
      Reduce(Some(once), SampleAction.SaveSamples(batch)) == once
  {
    SampleAction.TagsDistinct();
  }

  /** Any other action type leaves the log as it was, and the log starts empty. */
  lemma OtherActionsKeepLog(log: seq<Sample>, action: Action)
    requires action.kind != SampleAction.ADD_SAMPLE && action.kind != SampleAction.SET_SAMPLES
    ensures Reduce(Some(log), action) == log
    ensures Reduce(None, action) == [] && SamplesReducer(None, action) == VoidSampleState
  {
  }

  /** Two appends in a row store both batches in order. */
  lemma AppendsAccumulate(log: seq<Sample>, a: Sample, b: Sample)
    ensures var once := Reduce(Some(log), SampleAction.AddSample([a]));
      Reduce(Some(once), SampleAction.AddSample([b])) == log + [a, b]
  {
  }
}
