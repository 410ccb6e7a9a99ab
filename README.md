# Zoom and view transform of the rstools main window

This project models the zoom controller of the `MainWindow` class in `app.py`. The window has three zoom modes: fit-window, fit-width and manual zoom. It has two checkable fit actions and a zoom widget that holds the zoom value. Its slots change these in place: `setZoom`, `addZoom`, `setFitWindow`, `setFitWidth`, and the canvas's wheel `zoomRequest`. That last slot also moves the two scroll bars, so the point under the mouse pointer stays where it was. A scaler table maps each mode to its scale computation. The fit-window scaler compares aspect ratios so that the pixmap fits inside the central widget, less a 2-pixel margin. The fit-width scaler fills the width only.

The model has three modules:

- `ViewTransform` (`view_transform.dfy`) holds the pure geometry. It has the two fit scalers and the scaler table, Python's `round` (ties go to the even neighbour), the wheel's zoom step, and the scroll-bar shift. Widget and pixmap sizes, pointer coordinates and scroll-bar values are integers. Python floats are exact `real`s.
- `ZoomModes` (`zoom_modes.dfy`) holds the window's zoom state as a value (`ViewState`). It has one function per slot, each with its effect as its contract, and an `Event` type for the actions and the wheel. `Step` delivers one event to its slot and `Run` delivers a sequence of them. Lemmas cover the agreement between the mode and the checked fit actions, and short event sequences.
- `App` (`app.dfy`) holds the class `MainWindow`. Its fields are the ones the slots update: `zoomMode`, `fitWindowChecked`, `fitWidthChecked`, `zoomValue`, `hScroll` and `vScroll`. Each slot method states its new fields outright and also ties the new state to the matching `ZoomModes` function of the old state. Two methods are exceptions: `Dispatch` states its new state only as `Step` of the old one, and `AdjustScale`, which stands for the scale-adjustment hook, has no matching `ZoomModes` function.

Two things come from Qt, not from `app.py`, and the model states them:

- When a checkable action is clicked, it flips its own checked state and then passes the new state to its slot. The `ToggleFitWindow` and `ToggleFitWidth` events and `MainWindow.Dispatch` model this.
- `setChecked` does not re-enter the slots. This holds because the actions' `triggered` signal, not `toggled`, is connected to the slots; that connection is made by the `utils.newAction` helper, which is not part of this model.

Zooming in and then out does not restore the zoom value: the code multiplies by 1.1 and then by 0.9, so the value ends at 0.99 of where it started (`ZoomModes.ZoomInThenOut`).

The fit setters end by calling `adjustScale`, which is not defined in `app.py`. The model does not compute what it does: the zoom value and scroll-bar values it leaves behind are an input (`ZoomModes.Adjusted`), passed to the fit setters and carried by the fit-action events.

## Model

| member | source | states |
|---|---|---|
| ViewTransform.ScaleFitWindow | app.py:206-216 | for a container larger than the margin and a non-empty pixmap, the scale is positive, the scaled pixmap fits inside the container less 2.0 on both axes, and it fills one axis exactly (no scroll bars); defined exactly where Python does not divide by zero |
| ViewTransform.FitWindowIsLargest | app.py:206-216 | every scale at which the pixmap fits inside the container is at most the fit-window scale, so the fit-window scale is the largest that fits |
| ViewTransform.FitWindowExample | app.py:206-216 | an 800x600 container and a 1600x1200 pixmap give scale 598/1200: the container's ratio 798/598 is larger than 4/3, so the height binds |
| ViewTransform.ScaleFitWidth | app.py:217-220 | the scaled pixmap width equals the container width less 2.0; requires a non-zero pixmap width (Python divides by it) |
| ViewTransform.Scaler | app.py:90-95 | the scaler table: manual mode gives 1 (100% on load), fit-width fills the width, fit-window fits inside and touches one side |
| ViewTransform.RoundHalfEven | app.py:151-152 | Python's round: the result is within 1/2 of the argument, and it is even when the argument is exactly halfway |
| ViewTransform.RoundIsNearest | app.py:151-152 | no integer is closer to the argument than its rounding |
| ViewTransform.RoundUnique | app.py:151-152 | the two rounding properties determine the result: any integer that has both is the rounding |
| ViewTransform.RoundOfInt | app.py:151-152 | rounding an integer gives it back |
| ViewTransform.WheelStep | app.py:142-144 | the step is 0.9 exactly when the delta is negative, and 1.1 exactly when it is zero or positive |
| ViewTransform.ScrollShift | app.py:147-152 | no shift when the canvas width is unchanged; otherwise the pointer coordinate plus its shift is within 1/2 of the coordinate scaled by new width / old width, and even when exactly 1/2 away (Python's ties-to-even round, e.g. p=1, widths 2→1 gives −1) |
| ViewTransform.ScrollShiftTie | app.py:149-151 | at an exact half the shift follows Python's ties-to-even round: pointer at 1, width 2 to 1 gives a shift of −1, not 0 |
| ViewTransform.PointerStaysPut | app.py:147-157 | after the zoom and the scroll-bar move, the content that was under the pointer is on screen within half a pixel of where it was |
| ViewTransform.UnchangedWidthFormulaIsZero | app.py:148-152 | when the width is unchanged, the shift formula would give 0, so skipping it when the widths are equal changes nothing |
| ZoomModes.Initial | app.py:88-89 | the initial state is fit-window mode, with fit-window checked and fit-width unchecked, so the mode and the checked actions agree |
| ZoomModes.AfterSetZoom | app.py:188-192 | setZoom gives manual mode, unchecks both fit actions and stores exactly the given value; the scroll bars do not change; the mode and the checked actions agree afterwards |
| ZoomModes.AfterAddZoom | app.py:184-185 | addZoom gives manual mode with the zoom value multiplied by the increment; the scroll bars do not change |
| ZoomModes.AfterSetFitWindow | app.py:194-198 | setFitWindow(true) gives fit-window mode and unchecks fit-width; setFitWindow(false) gives manual mode and leaves fit-width as it was; the fit-window action is not touched; the zoom value and scroll bars are whatever the scale adjustment left |
| ZoomModes.AfterSetFitWidth | app.py:200-204 | the mirror image for fit-width: true gives fit-width mode and unchecks fit-window; false gives manual mode and leaves fit-window as it was; the zoom value and scroll bars are whatever the scale adjustment left |
| ZoomModes.AfterZoomRequest | app.py:140-157 | a wheel request gives manual mode and multiplies the zoom value by 0.9 when delta < 0, and by 1.1 otherwise (zero included); the scroll bars move only if the canvas width changed, and then each moves by round(p·new/old) − p on its axis |
| ZoomModes.AfterToggleFitWindow | app.py:194-198 | a click on the checkable fit-window action flips its checked state; now checked gives fit-window mode with fit-width unchecked, now unchecked gives manual mode with fit-width as it was; the zoom value and scroll bars are whatever the scale adjustment left |
| ZoomModes.AfterToggleFitWidth | app.py:200-204 | the mirror image for a click on the fit-width action |
| ZoomModes.Step | app.py:67-84 | each action or wheel request keeps this invariant: fit-window is checked exactly in fit-window mode, and fit-width exactly in fit-width mode; zoom-in multiplies the value by 1.1, zoom-out by 0.9, original size sets 100, and these and the wheel give manual mode |
| ZoomModes.RunKeepsAgreement | app.py:184-204 | any sequence of actions and wheel requests keeps the same invariant (by induction on the sequence) |
| ZoomModes.ReachableHasOneFitAtMost | app.py:77-89 | from the initial state, the two fit actions are never both checked |
| ZoomModes.ZoomInThenOut | app.py:67-72 | zoom-in followed by zoom-out leaves manual mode with the zoom value multiplied by 0.99, not restored |
| ZoomModes.ToggleFitWindowTwice | app.py:194-198 | clicking fit-window twice brings back its checked state and its mode if it was checked, and ends in manual mode if it was not; fit-width ends unchecked; the zoom value is what the second scale adjustment left |
| App.MainWindow.constructor | app.py:88-89 | the window starts in fit-window mode with fit-window checked and fit-width unchecked |
| App.MainWindow.SetZoom | app.py:188-192 | both fit actions unchecked, manual mode, the value stored; the scroll bars do not change |
| App.MainWindow.AddZoom | app.py:184-185 | the zoom value becomes the old value times the increment, in manual mode |
| App.MainWindow.AdjustScale | app.py:198 | the scale-adjustment call of the fit setters: the zoom value and scroll bars become what the adjustment leaves, and the mode and the checked actions do not change |
| App.MainWindow.SetFitWindow | app.py:194-198 | true unchecks fit-width and selects fit-window; false selects manual and leaves fit-width alone; the fit-window flag is not touched; the zoom value and scroll bars are what the scale adjustment left |
| App.MainWindow.SetFitWidth | app.py:200-204 | the mirror image of SetFitWindow |
| App.MainWindow.ZoomRequest | app.py:140-157 | the zoom value times the wheel step, manual mode; the scroll bars stay when the canvas width is unchanged, and otherwise each moves by its ScrollShift |
| App.MainWindow.Dispatch | app.py:67-84 | each action runs its slot; the new state is `Step` of the old one, and agreement between the mode and the checked actions is kept |

## Left out

- `main.py` is not part of this model. It only creates the application, sets the icon, sizes and centres the window and runs the event loop.
- The construction of actions, menus and toolbars, the status bar and the signal connection (app.py:35, 43-137, 178-182) are left out. They are presentation wiring. What the zoom actions invoke is modelled by `ZoomModes.Step`.
- `openFile` (app.py:159-175) is left out. It runs a file dialog and calls `mayContinue` and `loadFile`, which are not defined in `app.py`.
- `adjustScale` is not defined in `app.py`. What it leaves the zoom widget and the scroll bars at is an input (`Adjusted`), so the scale that the fit modes push into the zoom widget is not computed by the model.
- `scrollBars` is not defined in `app.py` either. The model treats the two scroll bars as the integer fields `hScroll` and `vScroll`.
- The default arguments `increment=1.1` (app.py:184) and `value=True` (app.py:194, 200) are not modelled: every call in `app.py` passes the argument.
- The zoom widget is a spin box defined outside `app.py`. Its clamping to a range and its conversion to an integer are not modelled. `zoomValue` is the exact product that `setZoom` receives, and its starting value is a constructor parameter.
- The canvas width before and after a zoom is set by the canvas, which lies outside `app.py`. `ZoomRequest` takes both widths as parameters.
- Scroll bars clamp their value to their range. That is Qt behaviour and is not modelled: the scroll values are unbounded integers.
- The enabled and disabled state of the zoom actions is not modelled. Only the code outside `app.py` enables them.
- Floating-point rounding is not modelled: floats are exact reals. Division by zero raises `ZeroDivisionError` in the source, so it is a precondition. This covers a zero usable height or pixmap height, a zero pixmap width when it is divided by, and a zero old canvas width when the width changed.
