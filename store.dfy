/** The root reducer: every action is handed to both slices, and the root
    state is the pair of their results. */
module AppReducer {
  import opened Wrappers
  import opened StoreTypes
  import SampleAction
  import SettingsAction
  import SampleReducer
  import SettingsReducer

  datatype AppState = AppState(samples: SampleReducer.State, settings: SettingsReducer.State)

  /** The payload typing the two slices rely on. */
  predicate Typed(a: Action) {
    SampleAction.Typed(a) && SettingsAction.Typed(a)
  }

  predicate IsSampleAction(a: Action) {
    a.kind == SampleAction.ADD_SAMPLE || a.kind == SampleAction.SET_SAMPLES
  }

  predicate IsSettingsAction(a: Action) {
    a.kind in {SettingsAction.SET_TIME_RANGE, SettingsAction.SET_PAGE, SettingsAction.SET_CURVE}
  }

  function Reduce(state: Option<AppState>, action: Action): (r: AppState)
    requires Typed(action)
    ensures state.Some? && !IsSettingsAction(action) ==> r.settings == state.value.settings
    ensures state.Some? && !IsSampleAction(action) ==> r.samples == state.value.samples
  {
    AppState(
      SampleReducer.SamplesReducer(if state.Some? then Some(state.value.samples) else None, action),
      SettingsReducer.SettingsReducer(if state.Some? then Some(state.value.settings) else None, action))
  }

  /** The store's dispatch of a sequence of actions, one after the other. */
  function DispatchAll(state: AppState, actions: seq<Action>): (r: AppState)
    requires forall a | a in actions :: Typed(a)
    ensures (forall a | a in actions :: !IsSettingsAction(a)) ==> r.settings == state.settings
    ensures (forall a | a in actions :: !IsSampleAction(a)) ==> r.samples == state.samples
    decreases |actions|
  {
    if actions == [] then state
    else
      SlicesIndependent(state, actions[0]);
      assert forall a | a in actions[1..] :: a in actions;
      DispatchAll(Reduce(Some(state), actions[0]), actions[1..])
  }

  /** The initial root state: the empty log and the default settings. */
  lemma InitialState(a: Action)
    requires Typed(a) && !IsSampleAction(a) && !IsSettingsAction(a)
    ensures Reduce(None, a) == AppState(SampleReducer.State([]), SettingsReducer.State(120, Home, Monotone))
  {
  }

  /** A sample action leaves the settings slice unchanged, and the samples
      slice becomes exactly what the log reducer makes of the old log. */
  lemma SampleActionsKeepSettings(s: AppState, a: Action)
    requires Typed(a) && IsSampleAction(a)
    ensures Reduce(Some(s), a).settings == s.settings
    ensures Reduce(Some(s), a).samples.samples == SampleReducer.Reduce(Some(s.samples.samples), a)
  {
    SampleAction.TagsDistinct();
    SettingsAction.TagsDistinct();
    assert a.kind[0] != 'S' || a.kind[1] != 'E' || a.kind[4] == 'S';
  }

  /** A settings action leaves the samples slice unchanged. */
  lemma SettingsActionsKeepSamples(s: AppState, a: Action)
    requires Typed(a) && IsSettingsAction(a)
    ensures Reduce(Some(s), a).samples == s.samples
  {
    SampleAction.TagsDistinct();
    SettingsAction.TagsDistinct();
    assert a.kind[4] in {'T', 'P', 'C'};
  }

  /** An unrecognised action leaves the whole state unchanged. */
  lemma OtherActionsKeepState(s: AppState, a: Action)
    requires Typed(a) && !IsSampleAction(a) && !IsSettingsAction(a)
    ensures Reduce(Some(s), a) == s
  {
  }

  /** A slice changes only under its own actions. */
  lemma SlicesIndependent(s: AppState, a: Action)
    requires Typed(a)
    ensures !IsSettingsAction(a) ==> Reduce(Some(s), a).settings == s.settings
    ensures !IsSampleAction(a) ==> Reduce(Some(s), a).samples == s.samples
  {
    if IsSampleAction(a) {
      SampleActionsKeepSettings(s, a);
    } else if IsSettingsAction(a) {
      SettingsActionsKeepSamples(s, a);
    } else {
      OtherActionsKeepState(s, a);
    }
  }

  /** Replacing the log with the empty batch and then with `batch` leaves
      exactly `batch`, with the settings untouched. */
  lemma {:induction false} ClearThenReplace(s: AppState, batch: seq<Sample>)
    ensures var r := DispatchAll(s, [SampleAction.SaveSamples([]), SampleAction.SaveSamples(batch)]);
      r.samples.samples == batch && r.settings == s.settings
  {
    var acts := [SampleAction.SaveSamples([]), SampleAction.SaveSamples(batch)];
    SampleActionsKeepSettings(s, acts[0]);
    var s1 := Reduce(Some(s), acts[0]);
    SampleActionsKeepSettings(s1, acts[1]);
    SampleReducer.ReplaceIgnoresPriorAndIsIdempotent(s1.samples.samples, batch);
    var s2 := Reduce(Some(s1), acts[1]);
    assert acts[1..][0] == acts[1] && acts[1..][1..] == [];
    assert DispatchAll(s1, acts[1..]) == DispatchAll(s2, []) == s2;
  }

  /** Appending one sample grows the log by exactly that sample. */
  lemma {:induction false} AppendOne(s: AppState, x: Sample)
    ensures var r := DispatchAll(s, [SampleAction.AddSample([x])]);
      r.samples.samples == s.samples.samples + [x] && r.settings == s.settings
  {
    var a := SampleAction.AddSample([x]);
    SampleActionsKeepSettings(s, a);
    assert [a][1..] == [];
  }
}
