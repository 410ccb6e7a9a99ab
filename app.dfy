/** The zoom part of the main window: the fields its zoom slots update in
    place, and the slots themselves. The checked state of the two checkable
    fit actions, the zoom widget's value and the scroll bars' values are
    fields of the window here. */
module App {
  import opened ViewTransform
  import opened ZoomModes

  class MainWindow {
    var zoomMode: ZoomMode
    var fitWindowChecked: bool
    var fitWidthChecked: bool
    var zoomValue: real
    var hScroll: int
    var vScroll: int

    /** The window's zoom state as a value. */
    function State(): ViewState
      reads this
    {
      ViewState(zoomMode, fitWindowChecked, fitWidthChecked, zoomValue, hScroll, vScroll)
    }

    /** Starts in fit-window mode with the fit-window action checked;
        `initialZoom` is the zoom widget's own starting value. */
    constructor (initialZoom: real)
      ensures zoomMode == FitWindow && fitWindowChecked && !fitWidthChecked
      ensures zoomValue == initialZoom
      ensures State() == Initial(initialZoom) && TogglesAgree(State())
    {
      zoomMode := FitWindow;
      fitWindowChecked := true;
      fitWidthChecked := false;
      zoomValue := initialZoom;
      hScroll, vScroll := 0, 0;
    }

    /** Unchecks both fit actions, selects manual mode and stores the value. */
    method SetZoom(value: real)
      modifies this
      ensures !fitWidthChecked && !fitWindowChecked
      ensures zoomMode == ManualZoom && zoomValue == value
      ensures hScroll == old(hScroll) && vScroll == old(vScroll)
      ensures State() == AfterSetZoom(old(State()), value)
      ensures TogglesAgree(State())
    {
      fitWidthChecked := false;
      fitWindowChecked := false;
      zoomMode := ManualZoom;
      zoomValue := value;
    }

    /** Multiplies the zoom value by `increment` through SetZoom. */
    method AddZoom(increment: real)
      modifies this
      ensures zoomValue == old(zoomValue) * increment
      ensures zoomMode == ManualZoom && !fitWidthChecked && !fitWindowChecked
      ensures hScroll == old(hScroll) && vScroll == old(vScroll)
      ensures State() == AfterAddZoom(old(State()), increment)
    {
      SetZoom(zoomValue * increment);
    }

    /** The scale adjustment the fit setters request. It is defined outside
        the window; `adjusted` is what it leaves the zoom widget and the
        scroll bars at. */
    method AdjustScale(adjusted: Adjusted)
      modifies this
      ensures zoomValue == adjusted.zoomValue
      ensures hScroll == adjusted.hScroll && vScroll == adjusted.vScroll
      ensures zoomMode == old(zoomMode)
      ensures fitWindowChecked == old(fitWindowChecked) && fitWidthChecked == old(fitWidthChecked)
    {
      zoomValue := adjusted.zoomValue;
      hScroll, vScroll := adjusted.hScroll, adjusted.vScroll;
    }

    /** Enabling unchecks fit-width and selects fit-window mode; disabling
        selects manual mode and leaves fit-width alone; then the scale is
        adjusted. The fit-window action's own checked state is not touched. */
    method SetFitWindow(value: bool, adjusted: Adjusted)
      modifies this
      ensures value ==> !fitWidthChecked && zoomMode == FitWindow
      ensures !value ==> fitWidthChecked == old(fitWidthChecked) && zoomMode == ManualZoom
      ensures fitWindowChecked == old(fitWindowChecked)
      ensures zoomValue == adjusted.zoomValue
      ensures hScroll == adjusted.hScroll && vScroll == adjusted.vScroll
      ensures State() == AfterSetFitWindow(old(State()), value, adjusted)
    {
      if value {
        fitWidthChecked := false;
      }
      zoomMode := if value then FitWindow else ManualZoom;
      AdjustScale(adjusted);
    }

    /** The mirror image of SetFitWindow. */
    method SetFitWidth(value: bool, adjusted: Adjusted)
      modifies this
      ensures value ==> !fitWindowChecked && zoomMode == FitWidth
      ensures !value ==> fitWindowChecked == old(fitWindowChecked) && zoomMode == ManualZoom
      ensures fitWidthChecked == old(fitWidthChecked)
      ensures zoomValue == adjusted.zoomValue
      ensures hScroll == adjusted.hScroll && vScroll == adjusted.vScroll
      ensures State() == AfterSetFitWidth(old(State()), value, adjusted)
    {
      if value {
        fitWindowChecked := false;
      }
      zoomMode := if value then FitWidth else ManualZoom;
      AdjustScale(adjusted);
    }

    /** The canvas's zoom request: zooms out by 0.9 for a negative delta and
        in by 1.1 otherwise; when the canvas width changed, moves each scroll
        bar so that the point under the pointer stays where it was. */
    method ZoomRequest(delta: int, x: int, y: int, widthBefore: int, widthAfter: int)
      requires ShiftDefined(widthBefore, widthAfter)
      modifies this
      ensures zoomValue == old(zoomValue) * WheelStep(delta)
      ensures zoomMode == ManualZoom && !fitWidthChecked && !fitWindowChecked
      ensures widthBefore == widthAfter ==> hScroll == old(hScroll) && vScroll == old(vScroll)
      ensures widthBefore != widthAfter ==>
        && hScroll == old(hScroll) + ScrollShift(x, widthBefore, widthAfter)
        && vScroll == old(vScroll) + ScrollShift(y, widthBefore, widthAfter)
      ensures State() == AfterZoomRequest(old(State()), delta, x, y, widthBefore, widthAfter)
    {
      var units := 1.1;
      if delta < 0 {
        units := 0.9;
      }
      AddZoom(units);
      if widthBefore != widthAfter {
        var xShift := ScrollShift(x, widthBefore, widthAfter);
        var yShift := ScrollShift(y, widthBefore, widthAfter);
        hScroll := hScroll + xShift;
        vScroll := vScroll + yShift;
      }
    }

    /** Delivers one event to its slot, as the window's connections do; a
        checkable fit action flips its checked state before its slot runs. */
    method Dispatch(e: Event)
      requires EventDefined(e)
      modifies this
      ensures State() == Step(old(State()), e)
      ensures old(TogglesAgree(State())) ==> TogglesAgree(State())
    {
      match e
      case ZoomIn => AddZoom(1.1);
      case ZoomOut => AddZoom(0.9);
      case OriginalSize => SetZoom(100.0);
      case ToggleFitWindow(adjusted) =>
        fitWindowChecked := !fitWindowChecked;
        SetFitWindow(fitWindowChecked, adjusted);
      case ToggleFitWidth(adjusted) =>
        fitWidthChecked := !fitWidthChecked;
        SetFitWidth(fitWidthChecked, adjusted);
      case Wheel(delta, x, y, before, after) => ZoomRequest(delta, x, y, before, after);
    }
  }
}
