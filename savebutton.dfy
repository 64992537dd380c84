/**
 * The save/remove star button of one ticker row. A click prevents the
 * default action, issues exactly one remote write (remove when the ticker is
 * saved, save when it is not) and then calls the caller's own click handler.
 * When the write succeeds the saved-ticker list is invalidated; when it fails
 * the user is alerted and nothing is invalidated.
 */
module Savebutton {
  import opened QueryKeys
  import Home

  datatype Mutation = Save(ticker: string) | Remove(ticker: string)

  /** How the remote write ended; the write itself is not modelled. */
  datatype Outcome = Succeeded | Failed

  /** The observable effects of the button, in the order they happen. */
  datatype Effect =
    | PreventDefault
    | Dispatch(mutation: Mutation)
    | CallerOnClick
    | Invalidate(key: QueryKey)
    | Alert(message: string)

  const ALERT_MESSAGE: string := "저장에 실패했습니다."

  /** `is_saved ? remove() : save()`. */
  function ChooseMutation(isSaved: bool, ticker: string): (m: Mutation)
    ensures m.Remove? <==> isSaved
    ensures m.Save? <==> !isSaved
    ensures m.ticker == ticker
  {
    if isSaved then Remove(ticker) else Save(ticker)
  }

  /** The effect of `handleSuccess` or `handleError` for one outcome. */
  function SettleEffect(outcome: Outcome): (e: Effect)
    ensures e.Invalidate? <==> outcome == Succeeded
    ensures e.Invalidate? ==> e.key == Home.SAVED_TICKER_LIST_KEY
    ensures e.Alert? <==> outcome == Failed
  {
    match outcome
    case Succeeded => Invalidate(Home.SAVED_TICKER_LIST_KEY)
    case Failed => Alert(ALERT_MESSAGE)
  }

  /** Everything one click produces, from the default-prevention to the write's settlement. */
  function ClickEffects(isSaved: bool, ticker: string, hasOnClick: bool, outcome: Outcome): (es: seq<Effect>)
    ensures |es| == if hasOnClick then 4 else 3
    ensures es[0] == PreventDefault && es[1] == Dispatch(ChooseMutation(isSaved, ticker))
    ensures hasOnClick ==> es[2] == CallerOnClick
    ensures es[|es| - 1] == SettleEffect(outcome)
  {
    [PreventDefault, Dispatch(ChooseMutation(isSaved, ticker))]
    + (if hasOnClick then [CallerOnClick] else [])
    + [SettleEffect(outcome)]
  }

  /**
   * A click dispatches exactly one write, remove if and only if the ticker is
   * saved, after preventing the default action and before the caller's handler.
   */
  lemma ClickDispatchesExactlyOne(isSaved: bool, ticker: string, hasOnClick: bool, outcome: Outcome)
    ensures var es := ClickEffects(isSaved, ticker, hasOnClick, outcome);
      && es[0] == PreventDefault
      && es[1] == Dispatch(if isSaved then Remove(ticker) else Save(ticker))
      && (forall i :: 0 <= i < |es| && es[i].Dispatch? ==> i == 1)
      && (hasOnClick <==> CallerOnClick in es)
      && (hasOnClick ==> es[2] == CallerOnClick)
  {
  }

  /**
   * Success invalidates exactly the saved-ticker key and alerts nobody;
   * failure alerts once and invalidates nothing.
   */
  lemma ClickSettlement(isSaved: bool, ticker: string, hasOnClick: bool, outcome: Outcome)
    ensures var es := ClickEffects(isSaved, ticker, hasOnClick, outcome);
      && (forall i :: 0 <= i < |es| && es[i].Invalidate? ==>
            outcome == Succeeded && es[i].key == ["saved-ticker-list"])
      && (outcome == Succeeded <==> Invalidate(Home.SAVED_TICKER_LIST_KEY) in es)
      && (forall i :: 0 <= i < |es| && es[i].Alert? ==> outcome == Failed && i == |es| - 1)
      && (outcome == Failed <==> Alert(ALERT_MESSAGE) in es)
  {
  }

  /** The star icon is the filled one exactly when the ticker is saved. */
  function IconName(isSaved: bool): (name: string)
    ensures name == "star_filled" <==> isSaved
    ensures name == "star_outlined" <==> !isSaved
  {
    if isSaved then "star_filled" else "star_outlined"
  }

  /** The icon's alternative text follows the same choice. */
  function IconAlt(isSaved: bool): (alt: string)
    ensures alt == "저장됨" <==> isSaved
    ensures alt == "저장안됨" <==> !isSaved
  {
    if isSaved then "저장됨" else "저장안됨"
  }

  /**
   * One mounted button. `savedListStale` is the staleness of the shared
   * cache entry under the saved-ticker key; `alerts` counts the failure
   * notifications shown; `effects` records what the button did, in order.
   */
  class SaveButton {
    const ticker: string
    const isSaved: bool
    const hasOnClick: bool
    var savedListStale: bool
    var alerts: nat
    var effects: seq<Effect>

    constructor (ticker: string, isSaved: bool, hasOnClick: bool, savedListStale: bool)
      ensures this.ticker == ticker && this.isSaved == isSaved && this.hasOnClick == hasOnClick
      ensures this.savedListStale == savedListStale && alerts == 0 && effects == []
    {
      this.ticker := ticker;
      this.isSaved := isSaved;
      this.hasOnClick := hasOnClick;
      this.savedListStale := savedListStale;
      alerts := 0;
      effects := [];
    }

    /** `handleSuccess`: marks the saved-ticker entry stale. */
    method HandleSuccess()
      modifies this
      ensures savedListStale
      ensures effects == old(effects) + [Invalidate(Home.SAVED_TICKER_LIST_KEY)]
      ensures alerts == old(alerts)
    {
      savedListStale := true;
      effects := effects + [Invalidate(Home.SAVED_TICKER_LIST_KEY)];
    }

    /** `handleError`: one alert, and the cache is left exactly as it was. */
    method HandleError()
      modifies this
      ensures savedListStale == old(savedListStale)
      ensures alerts == old(alerts) + 1
      ensures effects == old(effects) + [Alert(ALERT_MESSAGE)]
    {
      alerts := alerts + 1;
      effects := effects + [Alert(ALERT_MESSAGE)];
    }

    /** `handleClick`, followed by the settlement of the write it dispatched. */
    method Click(outcome: Outcome) returns (m: Mutation)
      modifies this
      ensures m == ChooseMutation(isSaved, ticker)
      ensures effects == old(effects) + ClickEffects(isSaved, ticker, hasOnClick, outcome)
      ensures savedListStale == (old(savedListStale) || outcome == Succeeded)
      ensures alerts == old(alerts) + (if outcome == Failed then 1 else 0)
    {
      effects := effects + [PreventDefault];
      m := if isSaved then Remove(ticker) else Save(ticker);
      effects := effects + [Dispatch(m)];
      if hasOnClick {
        effects := effects + [CallerOnClick];
      }
      match outcome {
        case Succeeded => HandleSuccess();
        case Failed => HandleError();
      }
    }
  }

  /** Two failed clicks alert twice and leave the entry as it was; a later successful one marks it stale without alerting. */
  method FailedClicksLeaveCacheAlone(ticker: string, isSaved: bool)
  {
    var b := new SaveButton(ticker, isSaved, false, false);
    var m1 := b.Click(Failed);
    var m2 := b.Click(Failed);
    assert m1 == m2 && m1.Remove? == isSaved;
    assert !b.savedListStale && b.alerts == 2;
    var m3 := b.Click(Succeeded);
    assert b.savedListStale && b.alerts == 2;
  }
}
