/** The three actions that change the settings slice. */
module SettingsAction {
  import opened StoreTypes

  const SET_TIME_RANGE: string := "SET_TIME_RANGE"
  const SET_PAGE: string := "SET_PAGE"
  const SET_CURVE: string := "SET_CURVE"

  /** The payload shape the source's typing admits for each settings tag. */
  predicate Typed(a: Action) {
    && (a.kind == SET_TIME_RANGE ==> a.payload.Seconds?)
    && (a.kind == SET_PAGE ==> a.payload.PageName?)
    && (a.kind == SET_CURVE ==> a.payload.CurveName?)
  }

  function SetTimeRange(payload: int): (a: Action)
    ensures a.kind == SET_TIME_RANGE && a.payload == Seconds(payload)
    ensures Typed(a)
  {
    Action(SET_TIME_RANGE, Seconds(payload))
  }

  function SetPage(payload: Page): (a: Action)
    ensures a.kind == SET_PAGE && a.payload == PageName(payload)
    ensures Typed(a)
  {
    Action(SET_PAGE, PageName(payload))
  }

  function SetCurve(payload: Curve): (a: Action)
    ensures a.kind == SET_CURVE && a.payload == CurveName(payload)
    ensures Typed(a)
  {
    Action(SET_CURVE, CurveName(payload))
  }

  /** The three tags are pairwise distinct. */
  lemma TagsDistinct()
    ensures SET_TIME_RANGE != SET_PAGE && SET_PAGE != SET_CURVE && SET_TIME_RANGE != SET_CURVE
  {
    assert SET_TIME_RANGE[4] == 'T' && SET_PAGE[4] == 'P' && SET_CURVE[4] == 'C';
  }
}
