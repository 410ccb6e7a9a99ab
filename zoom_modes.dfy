/** The main window's zoom state machine as values: the zoom mode, the checked
    state of the two checkable fit actions, the zoom widget's value and the two
    scroll bars, and what each transition of the window makes of them.

    The fit setters end by asking the window to adjust its scale. That hook is
    defined outside the window, so what it leaves the zoom widget and the
    scroll bars at is an input here (an `Adjusted` value), not a computation. */
module ZoomModes {
  import opened ViewTransform

  datatype ViewState = ViewState(
    zoomMode: ZoomMode,
    fitWindowChecked: bool,
    fitWidthChecked: bool,
    zoomValue: real,
    hScroll: int,
    vScroll: int)

  /** The zoom widget's value and the scroll bars' values once the scale
      adjustment requested by a fit setter has run. */
  datatype Adjusted = Adjusted(zoomValue: real, hScroll: int, vScroll: int)

  /** The zoom actions of the window and the wheel requests of the canvas. */
  datatype Event =
    | ZoomIn                    // the zoom-in action: addZoom(1.1)
    | ZoomOut                   // the zoom-out action: addZoom(0.9)
    | OriginalSize              // the original-size action: setZoom(100)
    | ToggleFitWindow(adjusted: Adjusted)
                                // a click on the checkable fit-window action
    | ToggleFitWidth(adjusted: Adjusted)
                                // a click on the checkable fit-width action
    | Wheel(delta: int, x: int, y: int, widthBefore: int, widthAfter: int)
                                // the canvas's zoom request, with the canvas
                                // width read before and after the zoom

  /** The mode and the two checkable fit actions agree: an action is checked
      exactly when its mode is the current one. */
  predicate TogglesAgree(st: ViewState) {
    && (st.fitWindowChecked <==> st.zoomMode == FitWindow)
    && (st.fitWidthChecked <==> st.zoomMode == FitWidth)
  }

  /** The state the window starts in: fit-window mode, fit-window checked,
      fit-width not checked; the zoom widget's own initial value and the
      scroll bars at zero. */
  function Initial(zoomValue: real): (st: ViewState)
    ensures TogglesAgree(st)
    ensures st.zoomMode == FitWindow && st.fitWindowChecked && !st.fitWidthChecked
  {
    ViewState(FitWindow, true, false, zoomValue, 0, 0)
  }

  /** setZoom: manual mode with nothing checked and exactly the given zoom
      value; the scroll bars are untouched. */
  function AfterSetZoom(st: ViewState, value: real): (r: ViewState)
    ensures r.zoomMode == ManualZoom && !r.fitWindowChecked && !r.fitWidthChecked
    ensures r.zoomValue == value && TogglesAgree(r)
    ensures r.hScroll == st.hScroll && r.vScroll == st.vScroll
  {
    st.(fitWidthChecked := false, fitWindowChecked := false,
        zoomMode := ManualZoom, zoomValue := value)
  }

  /** addZoom: setZoom with the current value times the increment. */
  function AfterAddZoom(st: ViewState, increment: real): (r: ViewState)
    ensures r.zoomMode == ManualZoom && TogglesAgree(r)
    ensures r.zoomValue == st.zoomValue * increment
    ensures r.hScroll == st.hScroll && r.vScroll == st.vScroll
  {
    AfterSetZoom(st, st.zoomValue * increment)
  }

  /** setFitWindow: enabling selects fit-window mode and unchecks fit-width;
      disabling selects manual mode and leaves fit-width as it was; the
      fit-window action itself is not touched; the scale adjustment then
      leaves the zoom widget and the scroll bars at `adjusted`. */
  function AfterSetFitWindow(st: ViewState, value: bool, adjusted: Adjusted): (r: ViewState)
    ensures value ==> r.zoomMode == FitWindow && !r.fitWidthChecked
    ensures !value ==> r.zoomMode == ManualZoom && r.fitWidthChecked == st.fitWidthChecked
    ensures r.fitWindowChecked == st.fitWindowChecked
    ensures r.zoomValue == adjusted.zoomValue
    ensures r.hScroll == adjusted.hScroll && r.vScroll == adjusted.vScroll
  {
    var st1 := if value then st.(fitWidthChecked := false) else st;
    st1.(zoomMode := if value then FitWindow else ManualZoom,
         zoomValue := adjusted.zoomValue,
         hScroll := adjusted.hScroll, vScroll := adjusted.vScroll)
  }

  /** setFitWidth: the mirror image of setFitWindow. */
  function AfterSetFitWidth(st: ViewState, value: bool, adjusted: Adjusted): (r: ViewState)
    ensures value ==> r.zoomMode == FitWidth && !r.fitWindowChecked
    ensures !value ==> r.zoomMode == ManualZoom && r.fitWindowChecked == st.fitWindowChecked
    ensures r.fitWidthChecked == st.fitWidthChecked
    ensures r.zoomValue == adjusted.zoomValue
    ensures r.hScroll == adjusted.hScroll && r.vScroll == adjusted.vScroll
  {
    var st1 := if value then st.(fitWindowChecked := false) else st;
    st1.(zoomMode := if value then FitWidth else ManualZoom,
         zoomValue := adjusted.zoomValue,
         hScroll := adjusted.hScroll, vScroll := adjusted.vScroll)
  }

  /** zoomRequest: multiplies the zoom value by 0.9 for a negative delta and
      by 1.1 otherwise, and moves each scroll bar by round(p * new / old) - p
      exactly when the canvas width changed. */
  function AfterZoomRequest(st: ViewState, delta: int, x: int, y: int,
                            widthBefore: int, widthAfter: int): (r: ViewState)
    requires ShiftDefined(widthBefore, widthAfter)
    ensures r.zoomMode == ManualZoom && TogglesAgree(r)
    ensures r.zoomValue == st.zoomValue * (if delta < 0 then 0.9 else 1.1)
    ensures widthBefore == widthAfter ==> r.hScroll == st.hScroll && r.vScroll == st.vScroll
    ensures widthBefore != widthAfter ==>
      && r.hScroll - st.hScroll
         == RoundHalfEven(x as real * (widthAfter as real / widthBefore as real)) - x
      && r.vScroll - st.vScroll
         == RoundHalfEven(y as real * (widthAfter as real / widthBefore as real)) - y
  {
    var st1 := AfterAddZoom(st, WheelStep(delta));
    if widthBefore != widthAfter then
      st1.(hScroll := st1.hScroll + ScrollShift(x, widthBefore, widthAfter),
           vScroll := st1.vScroll + ScrollShift(y, widthBefore, widthAfter))
    else st1
  }

  /** A click on the checkable fit-window action flips its checked state and
      then delivers the new state to setFitWindow. */
  function AfterToggleFitWindow(st: ViewState, adjusted: Adjusted): (r: ViewState)
    ensures r.fitWindowChecked == !st.fitWindowChecked
    ensures r.fitWindowChecked ==> r.zoomMode == FitWindow && !r.fitWidthChecked
    ensures !r.fitWindowChecked ==> r.zoomMode == ManualZoom && r.fitWidthChecked == st.fitWidthChecked
    ensures r.zoomValue == adjusted.zoomValue
    ensures r.hScroll == adjusted.hScroll && r.vScroll == adjusted.vScroll
  {
    AfterSetFitWindow(st.(fitWindowChecked := !st.fitWindowChecked), !st.fitWindowChecked, adjusted)
  }

  /** The mirror image for the fit-width action. */
  function AfterToggleFitWidth(st: ViewState, adjusted: Adjusted): (r: ViewState)
    ensures r.fitWidthChecked == !st.fitWidthChecked
    ensures r.fitWidthChecked ==> r.zoomMode == FitWidth && !r.fitWindowChecked
    ensures !r.fitWidthChecked ==> r.zoomMode == ManualZoom && r.fitWindowChecked == st.fitWindowChecked
    ensures r.zoomValue == adjusted.zoomValue
    ensures r.hScroll == adjusted.hScroll && r.vScroll == adjusted.vScroll
  {
    AfterSetFitWidth(st.(fitWidthChecked := !st.fitWidthChecked), !st.fitWidthChecked, adjusted)
  }

  predicate EventDefined(e: Event) {
    e.Wheel? ==> ShiftDefined(e.widthBefore, e.widthAfter)
  }

  /** The slot each event is connected to. Every slot keeps the mode and the
      checked fit actions in agreement; the zoom actions scale the zoom value
      by their step or set it to 100. */
  function Step(st: ViewState, e: Event): (r: ViewState)
    requires EventDefined(e)
    ensures TogglesAgree(st) ==> TogglesAgree(r)
    ensures e == ZoomIn ==> r.zoomValue == st.zoomValue * 1.1
    ensures e == ZoomOut ==> r.zoomValue == st.zoomValue * 0.9
    ensures e == OriginalSize ==> r.zoomValue == 100.0
    ensures e.ZoomIn? || e.ZoomOut? || e.OriginalSize? || e.Wheel? ==> r.zoomMode == ManualZoom
  {
    match e
    case ZoomIn => AfterAddZoom(st, ZoomInStep)
    case ZoomOut => AfterAddZoom(st, ZoomOutStep)
    case OriginalSize => AfterSetZoom(st, 100.0)
    case ToggleFitWindow(adjusted) => AfterToggleFitWindow(st, adjusted)
    case ToggleFitWidth(adjusted) => AfterToggleFitWidth(st, adjusted)
    case Wheel(delta, x, y, before, after) => AfterZoomRequest(st, delta, x, y, before, after)
  }

  predicate AllDefined(es: seq<Event>) {
    forall i :: 0 <= i < |es| ==> EventDefined(es[i])
  }

  function Run(st: ViewState, es: seq<Event>): ViewState
    requires AllDefined(es)
    decreases |es|
  {
    if es == [] then st else Run(Step(st, es[0]), es[1..])
  }

  /** Whatever the user does, the mode and the checked fit actions agree. */
  lemma {:induction false} RunKeepsAgreement(st: ViewState, es: seq<Event>)
    requires AllDefined(es) && TogglesAgree(st)
    ensures TogglesAgree(Run(st, es))
    decreases |es|
  {
    if es != [] {
      assert AllDefined(es[1..]) by {
        forall i | 0 <= i < |es[1..]| ensures EventDefined(es[1..][i]) {
          assert es[1..][i] == es[i + 1];
        }
      }
      RunKeepsAgreement(Step(st, es[0]), es[1..]);
    }
  }

  /** From the initial state, at most one fit action is ever checked. */
  lemma ReachableHasOneFitAtMost(zoomValue: real, es: seq<Event>)
    requires AllDefined(es)
    ensures var r := Run(Initial(zoomValue), es);
      !(r.fitWindowChecked && r.fitWidthChecked)
  {
    RunKeepsAgreement(Initial(zoomValue), es);
  }

  /** Zooming in and then out does not restore the zoom value: the two steps
      multiply to 0.99, so the value shrinks by one percent. */
  lemma ZoomInThenOut(st: ViewState)
    ensures Run(st, [ZoomIn, ZoomOut]).zoomValue == st.zoomValue * 0.99
    ensures Run(st, [ZoomIn, ZoomOut]).zoomMode == ManualZoom
  {
  }

  /** Clicking the fit-window action twice restores its checked state and
      its mode when it was checked, and ends in manual mode when it was not;
      either way fit-width ends unchecked and the zoom value is whatever the
      second scale adjustment left. */
  lemma {:induction false} ToggleFitWindowTwice(st: ViewState, first: Adjusted, second: Adjusted)
    requires TogglesAgree(st)
    ensures var r := Run(st, [ToggleFitWindow(first), ToggleFitWindow(second)]);
      && r.fitWindowChecked == st.fitWindowChecked && !r.fitWidthChecked
      && r.zoomMode == (if st.fitWindowChecked then FitWindow else ManualZoom)
      && r.zoomValue == second.zoomValue
  {
    var e1, e2 := ToggleFitWindow(first), ToggleFitWindow(second);
    assert [e1, e2][1..] == [e2];
    assert [e2][1..] == [];
    assert Run(st, [e1, e2]) == Run(Step(st, e1), [e2]);
    assert Run(Step(st, e1), [e2]) == Run(Step(Step(st, e1), e2), []);
  }
}
