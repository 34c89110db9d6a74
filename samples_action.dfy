/** The two actions that change the sample log: append a batch, replace the log. */
module SampleAction {
  import opened StoreTypes

  const ADD_SAMPLE: string := "ADD_SAMPLE"
  const SET_SAMPLES: string := "SET_SAMPLES"

  /** The payload shapes the source's typing admits for the two sample tags:
      an append carries a list; a replace carries a list or nothing. */
  predicate Typed(a: Action) {
    && (a.kind == ADD_SAMPLE ==> a.payload.SampleBatch?)
    && (a.kind == SET_SAMPLES ==> a.payload.SampleBatch? || a.payload.Absent?)
  }

  /** The append action; its payload is the batch, unchanged. */
  function AddSample(payload: seq<Sample>): (a: Action)
    ensures a.kind == ADD_SAMPLE && a.payload == SampleBatch(payload)
    ensures Typed(a)
  {
    Action(ADD_SAMPLE, SampleBatch(payload))
  }

  /** The replace action (not an append); its payload is the batch, unchanged. */
  function SaveSamples(payload: seq<Sample>): (a: Action)
    ensures a.kind == SET_SAMPLES && a.kind != ADD_SAMPLE && a.payload == SampleBatch(payload)
    ensures Typed(a)
  {
    Action(SET_SAMPLES, SampleBatch(payload))
  }

  /** The tags differ, so a reducer never takes an append for a replace. */
  lemma TagsDistinct()
    ensures ADD_SAMPLE != SET_SAMPLES
  {
    assert ADD_SAMPLE[0] == 'A' && SET_SAMPLES[0] == 'S';
  }

  /** The constructors are total and injective: different batches give
      different actions, and an append never equals a replace. */
  lemma {:induction false} ConstructorsInjective(p: seq<Sample>, q: seq<Sample>)
    ensures AddSample(p) == AddSample(q) <==> p == q
    ensures SaveSamples(p) == SaveSamples(q) <==> p == q
    ensures AddSample(p) != SaveSamples(q)
  {
    TagsDistinct();
  }
}
