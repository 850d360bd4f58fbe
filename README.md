# Exhume This Plot: session engine

Exhume This Plot (`etp.py`) digitises a raster image of a plot. The user
calibrates an x axis and a y axis against the image and places markers,
grouped in series, on the data points. The tool then turns every marker
into a data value with an uncertainty. This project models the engine
behind the interactive window, in Dafny:

- `view.dfy` (module `View`) holds the integer positions and the view. A
  screen position is `global * zoom - pan` and a global coordinate is
  `(screen + pan) / zoom`, each truncated toward zero like Python's
  `int()`. It also holds the pan and zoom steps.
- `calibration.dfy` (module `Calibration`) holds the axes and the
  per-marker formulas of `compute_coords`. `ComputeCoords` is the loop that
  builds one row per marker.
- `axis_capture.dfy` (module `AxisCapture`) holds `ask_axis`, the two-click
  capture loop. `Step` and `Run` specify it, `AskAxis` is the loop itself,
  and the lemmas state the protocol.
- `session.dfy` (module `Session`) holds the class `Session`, with the state
  of `analyze_picture`. It has one method per input event of the main loop.
  The mouse position, the wheel notches and the Shift/Ctrl state are
  parameters. Each method states its whole new state as the old state with
  some fields replaced (`State()`), and keeps the invariant `Valid()`.

Numbers are exact: zoom, pan, marker sizes and results are `real`, and
positions are `int`.

The model follows the code, including these quirks:

- E, X and Y act in any mode. Escape always sets the working series to 0.
- Entering edit mode does not move the edit cursor.
- Shift+Home and Shift+End change the selected series but keep the marker
  index. End on an empty series sets the marker index to -1.
- Deleting a series leaves the size and shape lists and the working series
  as they were. So the invariant is `|sizes| >= |data|`, not equality, and
  the working series indexes `data` only in normal mode. In edit mode it
  still indexes `sizes` and `shapes`, which the wheel updates in any mode.
- The interface declares an `axis` mode but never enters it, so `Mode` has
  only `Normal` and `Edit`.
- The zoom is clamped at exactly 0. There, `pos_to_gcoord` divides by zero,
  which is why `LeftClick` requires a non-zero zoom in normal mode. Inside a
  capture, such a click ends the loop with `ZeroDivision`.
- Global -> screen -> global is exact at zoom 1 with no pan. Above zoom 1 it
  is off by at most one unit. Below zoom 1 the error grows toward 1 + 1/zoom:
  at zoom 0.1, the marker (5, 5) comes back as (0, 0).
- Deleting a marker selects the one before it, or the first one. The
  selection stays inside the series unless the series has just become
  empty.
- `compute_coords` divides only when it reaches a marker. Flat axes
  therefore fail only when some series has markers.

## Model

| member | source | states |
|---|---|---|
| View.ToScreen | etp.py:111-114 | one screen coordinate is global * zoom - pan truncated toward zero |
| View.ToGlobal | etp.py:117-120 | one global coordinate is (screen + pan) / zoom truncated toward zero |
| View.GCoordToPos | etp.py:111-114 | `gcoord_to_pos`: both screen coordinates are global * zoom - pan, each truncated toward zero |
| View.PosToGCoord | etp.py:117-120 | `pos_to_gcoord`: both global coordinates are (screen + pan) / zoom, each truncated toward zero; only defined for a non-zero zoom |
| View.Trunc | etp.py:119-120 | the result is `int()` of a float: less than one away from the input and no larger in magnitude (truncation toward zero) |
| View.TruncOfInteger | etp.py:113-114 | truncation leaves an integer as it is |
| View.PanBy | etp.py:437-467 | an arrow key moves the pan by 100 * zoom along one coordinate only, in the arrow's direction |
| View.ZoomBy | etp.py:376-378 | Ctrl+wheel changes the zoom by a tenth per notch, clamped at 0 and never negative |
| View.ScreenRoundTripAtUnitZoom | etp.py:111-120 | at zoom 1 with an integral pan, screen -> global -> screen returns the same pixel |
| View.GlobalRoundTripAtIdentityView | etp.py:73-79 | at zoom 1 with no pan, global coordinates equal screen positions: global -> screen -> global is the identity |
| View.AxisRoundTripError | etp.py:111-120 | for one coordinate and any positive zoom, global -> screen -> global is off by less than 1 + 1/zoom |
| View.GlobalRoundTripError | etp.py:111-120 | the same bound for both coordinates of a point under any pan |
| View.GlobalRoundTripWithinOne | etp.py:111-120 | from zoom 1 upward, the round trip is off by at most one unit per coordinate |
| View.GlobalRoundTripLossyBelowUnitZoom | etp.py:111-120 | at zoom 0.1, the marker (5, 5) comes back as (0, 0), so the one-unit bound fails below zoom 1 |
| View.PanRightShiftsScreen | etp.py:455-457 | one step right moves every projected point 100 * zoom pixels left, give or take the pixel lost to truncation, and leaves its y alone |
| Calibration.Radius | etp.py:294 | the uncertainty radius is the marker size times the zoom, but at least one pixel |
| Calibration.Resolve | etp.py:291-295 | times the axis span, a marker's value is its offset from the axis start; the x uncertainty is the radius and the y uncertainty its negation |
| Calibration.ComputeCoords | etp.py:279-298 | one row list per (series, size) pair of the zip, one row per marker in series order, each the marker's resolved row; runs whenever the axes are not flat or no marker is reached |
| Calibration.AxisEndsMapToZeroAndOne | etp.py:292-293 | the axis start maps to value 0 and the axis end to value 1, on both axes |
| Calibration.ResolveIsAffine | etp.py:292 | moving a marker by d along x changes its x value by d / span and nothing else in its row |
| Calibration.UncertaintySigns | etp.py:294-295 | dx has the sign of the x span, dy the opposite sign of the y span |
| Calibration.UncertaintyScalesWithZoom | etp.py:294 | once a marker covers more than a pixel, multiplying the zoom by a factor k >= 1 multiplies both exported uncertainties, dx and dy, by k |
| Calibration.DefaultAxesExample | etp.py:95-96 | with the placeholder axes, the marker (50, 50) of size 5 gives (0.5, 0.05, 0.5, 0.05) at zoom 1 and (0.5, 0.1, 0.5, 0.1) at zoom 2 |
| AxisCapture.AlignedEnd | etp.py:136-142 | the second point keeps the click's coordinate along the axis and the first point's coordinate across it, so the axis is aligned |
| AxisCapture.MoveView | etp.py:148-162 | an arrow pans the local view by 100 * zoom in its direction, Space resets it to zoom 1 with no pan, Ctrl+wheel applies the clamped zoom step; other keys and the plain wheel change nothing; the points taken are never touched |
| AxisCapture.Step | etp.py:129-162 | one event: quit raises QuitEvent; a left click at zoom 0 divides by zero; otherwise only a left click with one point held completes, giving the axis from that point to the click forced onto the axis; a first left click takes a point; a right click drops the held point or does nothing; keys and the wheel only move the local view; other buttons and other inputs change nothing |
| AxisCapture.AskAxis | etp.py:123-185 | the capture loop ends exactly as the step-by-step run does, and a completed axis is aligned |
| AxisCapture.CapturedAxisIsAligned | etp.py:136-143 | whatever the clicks, a completed x axis shares y at both ends and a completed y axis shares x |
| AxisCapture.Run | etp.py:128-162 | the loop over an input stream, stopping at the first outcome; while still waiting it holds zero or one point |
| AxisCapture.RunResumes | etp.py:128-162 | running over a + b is running over a and, if still waiting, carrying on from that state over b; once the loop has returned, later input is never read |
| AxisCapture.CaptureNeedsTwoLeftClicks | etp.py:134-143 | a capture from scratch completes only after at least two left clicks |
| AxisCapture.QuitNeedsQuitRequest | etp.py:130-131 | the loop ends with QuitEvent only if a quit event arrived |
| AxisCapture.CaptureExamples | etp.py:134-146 | two clicks give an aligned axis; after a right click the capture restarts from the next left click |
| Session.NavStep | etp.py:441-443 | the edit-mode navigation step is 10 with Shift held and 1 without |
| Session.Wrap | etp.py:413 | Python's `%` with a positive modulus: a value in [0, n) that differs from the input by a multiple of n |
| Session.NextSeries | etp.py:411-413 | N moves to the next series and from the last back to the first, staying in range |
| Session.PrevSeries | etp.py:415-417 | P moves to the previous series and from the first to the last, staying in range |
| Session.NextAndPrevAreInverse | etp.py:411-417 | N undoes P and P undoes N |
| Session.PressNWraps | etp.py:412-413 | k presses of N move the working series to (w + k) mod count |
| Session.PressPWraps | etp.py:416-417 | k presses of P move the working series to (w - k) mod count |
| Session.FullCycleRestoresWorkingSeries | etp.py:411-417 | count presses of N, or of P, restore the working series |
| Session.NextShape | etp.py:419-421 | M maps shapes 1 -> 2 -> 3 -> 4 -> 5 -> 1 and always yields one of the five shapes |
| Session.ShapeCycleRestores | etp.py:42-47 | five presses of M bring any shape back |
| Session.Resize | etp.py:380 | the wheel sets the size to size + notches, or to 1 if that is smaller, so sizes stay at least 1 |
| Session.PyIndex | etp.py:496 | a Python list index in [-n, n) selects element i, counting from the end when negative |
| Session.RemoveAt | etp.py:520 | `pop(k)` removes exactly element k and keeps the others in order |
| Session.Session.constructor | etp.py:87-99 | a fresh session has one empty series of size 5 drawn as circles, the placeholder axes, zoom 1, no pan, normal mode |
| Session.Session.Quit | etp.py:373-374 | closing the window stops the session and changes nothing else |
| Session.Session.Wheel | etp.py:376-380 | in any mode, Ctrl+wheel zooms and the plain wheel resizes only the working series' markers |
| Session.Session.LeftClick | etp.py:384-388 | in normal mode, appends the clicked global coordinate to the working series; in edit mode, changes nothing |
| Session.Session.RightClick | etp.py:391-393 | in normal mode, drops the working series' last marker if there is one; otherwise changes nothing |
| Session.Session.KeyE | etp.py:397-398 | enters edit mode from any mode and leaves the cursor alone |
| Session.Session.KeyEscape | etp.py:400-402 | returns to normal mode and always sets the working series to 0 |
| Session.Session.KeyReturn | etp.py:404-409 | in normal mode, appends an empty series, size 5 and a circle, and makes it the working series |
| Session.Session.KeyN | etp.py:411-413 | in normal mode, the working series becomes NextSeries of it |
| Session.Session.KeyP | etp.py:415-417 | in normal mode, the working series becomes PrevSeries of it |
| Session.Session.KeyM | etp.py:419-421 | in normal mode, the working series' shape becomes NextShape of it |
| Session.Session.SetAxis | etp.py:423-435 | in any mode, a completed capture replaces only that axis and leaves the view as it was; a quit leaves the axes alone and stops the session |
| Session.Session.KeyUp | etp.py:437-444 | normal mode pans up; edit mode selects marker 0 of the series (s - step) mod count, with step 10 under Shift and 1 otherwise |
| Session.Session.KeyDown | etp.py:446-453 | normal mode pans down; edit mode selects marker 0 of the series (s + step) mod count |
| Session.Session.KeyRight | etp.py:455-463 | normal mode pans right; edit mode moves the marker index to (i + step) mod length, but only in a non-empty series |
| Session.Session.KeyLeft | etp.py:465-473 | normal mode pans left; edit mode moves the marker index to (i - step) mod length, but only in a non-empty series |
| Session.Session.KeyHome | etp.py:475-480 | in edit mode, Shift selects series 0 and keeps the marker index; without Shift, selects marker 0 |
| Session.Session.KeyEnd | etp.py:482-487 | in edit mode, Shift selects the last series and keeps the marker index; without Shift, selects the last marker, which is -1 in an empty series |
| Session.Session.KeySpace | etp.py:489-492 | in normal mode, resets the view to zoom 1 with no pan |
| Session.Session.MoveSelected | etp.py:494-514 | moves only the selected marker, by (dx, dy) |
| Session.Session.KeyW | etp.py:494-497 | in edit mode, moves only the selected marker up one unit |
| Session.Session.KeyS | etp.py:499-504 | in edit mode, moves only the selected marker down one unit; in normal mode, saving leaves the state unchanged |
| Session.Session.KeyA | etp.py:506-509 | in edit mode, moves only the selected marker left one unit |
| Session.Session.KeyD | etp.py:511-514 | in edit mode, moves only the selected marker right one unit |
| Session.Session.KeyDelete | etp.py:516-529 | Shift with several series removes the selected one and sets the cursor to (max(0, s-1), 0); with one series, empties it in place; the size and shape lists and the working series are untouched, so the series list is never empty; without Shift, in a non-empty series, removes exactly the selected marker and sets the index to max(0, i-1) |
| Session.Session.KeyC | etp.py:531-534 | in normal mode, fills the computed rows with one row per marker of every series, in order, and changes nothing else |
| Session.Session.KeyH | etp.py:536-537 | shows or hides the help overlay in any mode |

## Left out

- Rendering and windowing are not modelled. This covers `draw_marker`, `draw_data_markers`, `draw_markers_overlay`, `draw_axes`, `draw_mouse_overlay`, `draw_controls_overlay`, the screen fills and blits, the colour maths and the frame clock. Apart from the failures below, they only present state.
- Event polling and the mouse and keyboard queries are not modelled. Their results are method parameters, and each capture input carries the mouse position and Ctrl state that the source queries.
- Saving and loading the session file (pickle) are not modelled, because the serialisation is opaque library code. `KeyS` in normal mode therefore changes no state. A successful load also resets the working series and the cursor to 0. A loaded file is not checked, so it could break `Valid()`.
- `export_data` is not modelled. It writes CSV files through numpy with `%1.7f` formatting, which is file I/O and float formatting. `KeyC` only computes the rows.
- The command-line driver is not modelled. It parses the arguments and runs one session per file.
- Float arithmetic is replaced by exact reals. This includes the rounding of zoom steps of 0.1, float division in `compute_coords`, and the float width of the results.
- AxisCapture.AskAxis: events are consumed one at a time. In the source they come in batches, and a batch is finished even after the completing click. A quit in the rest of that batch would still raise QuitEvent and discard the axis. Likewise, the main loop's `running` flag is not checked until the end of the batch.
- Session.Session.SetAxis requires the capture to end with an axis or a quit. The source keeps waiting for input until it does. A left click at zoom 0 raises ZeroDivisionError, which the source does not catch.
- Session.Session.LeftClick requires a non-zero zoom in normal mode, because `pos_to_gcoord` raises ZeroDivisionError at zoom 0. At zoom 0 the next frame's mouse overlay (`draw_mouse_overlay`) raises the same error in normal mode. The model does not capture that failure: Ctrl+wheel in normal mode (`Wheel`) and Escape out of edit mode at zoom 0 (`KeyEscape`) both reach such a state, and the model carries on from it.
- Session.Session.KeyW, KeyA, KeyS, KeyD and KeyDelete require the selected marker index to be a valid Python index into its series. The source indexes without a guard and raises IndexError otherwise, for instance after normal-mode right clicks have shortened the series.
- Session.Session.KeyE, KeyHome and KeyEnd: the model does not capture the IndexError that the frame drawn after each event raises in edit mode. `draw_markers_overlay` indexes the selected series with the marker index whenever that series is non-empty. Entering edit mode keeps a cursor that right clicks may have left past the end, and Shift+Home or Shift+End keep the index while switching series. Both can reach such a state, for example three left clicks, E, End, Escape, two right clicks, E. The model carries on from it; the source stops.
- Session.Session.KeyC requires the axes to be non-degenerate whenever some series has a marker. Otherwise `compute_coords` raises ZeroDivisionError.
