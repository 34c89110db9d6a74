/** The settings store: time range (seconds), page and curve, each held by its
    own reducer that stores its action's payload verbatim. */
module SettingsReducer {
  import opened Wrappers
  import opened StoreTypes
  import SettingsAction

  datatype State = State(timeRange: int, page: Page, curve: Curve)

  const DEFAULT_TIME_RANGE: int := 120
  const DEFAULT_PAGE: Page := Home
  const DEFAULT_CURVE: Curve := Monotone

  /** The slice's initial state. */
  const VoidSettingsState: State := State(DEFAULT_TIME_RANGE, DEFAULT_PAGE, DEFAULT_CURVE)

  function TimeRangeReducer(state: Option<int>, action: Action): (r: int)
    requires SettingsAction.Typed(action)
    ensures action.kind == SettingsAction.SET_TIME_RANGE ==> r == action.payload.seconds
    ensures action.kind != SettingsAction.SET_TIME_RANGE ==> r == if state.Some? then state.value else 120
  {
    var s := state.GetOr(DEFAULT_TIME_RANGE);
    if action.kind == SettingsAction.SET_TIME_RANGE then action.payload.seconds else s
  }

  function PageReducer(state: Option<Page>, action: Action): (r: Page)
    requires SettingsAction.Typed(action)
    ensures action.kind == SettingsAction.SET_PAGE ==> r == action.payload.page
    ensures action.kind != SettingsAction.SET_PAGE ==> r == if state.Some? then state.value else Home
  {
    var s := state.GetOr(DEFAULT_PAGE);
    if action.kind == SettingsAction.SET_PAGE then action.payload.page else s
  }

  function CurveReducer(state: Option<Curve>, action: Action): (r: Curve)
    requires SettingsAction.Typed(action)
    ensures action.kind == SettingsAction.SET_CURVE ==> r == action.payload.curve
    ensures action.kind != SettingsAction.SET_CURVE ==> r == if state.Some? then state.value else Monotone
  {
    var s := state.GetOr(DEFAULT_CURVE);
    if action.kind == SettingsAction.SET_CURVE then action.payload.curve else s
  }

  /** The combined slice reducer: each field's reducer sees the whole action. */
  function SettingsReducer(state: Option<State>, action: Action): (r: State)
    requires SettingsAction.Typed(action)
    ensures var s := state.GetOr(VoidSettingsState);
      if action.kind == SettingsAction.SET_TIME_RANGE then r == s.(timeRange := action.payload.seconds)
      else if action.kind == SettingsAction.SET_PAGE then r == s.(page := action.payload.page)
      else if action.kind == SettingsAction.SET_CURVE then r == s.(curve := action.payload.curve)
      else r == s
  {
    SettingsAction.TagsDistinct();
    State(
      TimeRangeReducer(if state.Some? then Some(state.value.timeRange) else None, action),
      PageReducer(if state.Some? then Some(state.value.page) else None, action),
      CurveReducer(if state.Some? then Some(state.value.curve) else None, action))
  }

  /** Each setter stores its payload verbatim (no coercion in the reducer)
      and leaves the other two fields untouched. */
  lemma SettersChangeOnlyTheirField(s: State, n: int, p: Page, c: Curve)
    ensures SettingsReducer(Some(s), SettingsAction.SetTimeRange(n)) == s.(timeRange := n)
    ensures SettingsReducer(Some(s), SettingsAction.SetPage(p)) == s.(page := p)
    ensures SettingsReducer(Some(s), SettingsAction.SetCurve(c)) == s.(curve := c)
  {
    SettingsAction.TagsDistinct();
  }

  /** Setting the same value twice is the same as setting it once. */
  lemma SettersIdempotent(s: State, a: Action)
    requires a.kind in {SettingsAction.SET_TIME_RANGE, SettingsAction.SET_PAGE, SettingsAction.SET_CURVE}
    requires SettingsAction.Typed(a)
    ensures SettingsReducer(Some(SettingsReducer(Some(s), a)), a) == SettingsReducer(Some(s), a)
  {
    SettingsAction.TagsDistinct();
  }

  /** The initial state is 120 seconds, the home page and the monotone curve;
      an action with another tag leaves a state unchanged. */
  lemma DefaultsAndOtherActions(s: State, a: Action)
    requires SettingsAction.Typed(a)
    requires a.kind !in {SettingsAction.SET_TIME_RANGE, SettingsAction.SET_PAGE, SettingsAction.SET_CURVE}
    ensures SettingsReducer(None, a) == State(120, Home, Monotone)
    ensures SettingsReducer(Some(s), a) == s
  {
  }
}
