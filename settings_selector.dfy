/** Projections of the settings slice out of the root state. */
module SettingsSelector {
  import opened Wrappers
  import opened StoreTypes
  import SettingsAction
  import SampleAction
  import AppReducer

  /** Storing the time range just read back changes nothing. */
  function SelectTimeRange(s: AppReducer.AppState): (r: int)
    ensures AppReducer.Reduce(Some(s), SettingsAction.SetTimeRange(r)) == s
  {
    s.settings.timeRange
  }

  /** Storing the page just read back changes nothing. */
  function SelectPage(s: AppReducer.AppState): (r: Page)
    ensures AppReducer.Reduce(Some(s), SettingsAction.SetPage(r)) == s
  {
    s.settings.page
  }

  /** Storing the curve just read back changes nothing. */
  function SelectCurve(s: AppReducer.AppState): (r: Curve)
    ensures AppReducer.Reduce(Some(s), SettingsAction.SetCurve(r)) == s
  {
    s.settings.curve
  }

  /** Each selector reads back what its setter stored: set, then get, yields
      the payload. */
  lemma SelectAfterSet(s: AppReducer.AppState, n: int, p: Page, c: Curve)
    ensures SelectTimeRange(AppReducer.Reduce(Some(s), SettingsAction.SetTimeRange(n))) == n
    ensures SelectPage(AppReducer.Reduce(Some(s), SettingsAction.SetPage(p))) == p
    ensures SelectCurve(AppReducer.Reduce(Some(s), SettingsAction.SetCurve(c))) == c
  {
    SettingsAction.TagsDistinct();
  }

  /** The three selectors read only the settings slice, so no sample action
      changes what they return. */
  lemma {:induction false} SampleActionsInvisible(s: AppReducer.AppState, a: Action)
    requires AppReducer.Typed(a) && AppReducer.IsSampleAction(a)
    ensures var r := AppReducer.Reduce(Some(s), a);
      SelectTimeRange(r) == SelectTimeRange(s) && SelectPage(r) == SelectPage(s)
      && SelectCurve(r) == SelectCurve(s)
  {
    AppReducer.SampleActionsKeepSettings(s, a);
  }
}
