# PrizeWheelView in Dafny

A model of the logic inside `PrizeWheelView`, an Android prize-wheel widget.
The widget draws a wheel of equal sections. The sections can be solid colours, bitmaps or drawable resources.
The user spins the wheel by dragging it or by flinging it.
A fling slows down tick by tick until it stops. The wheel then tells a listener which section sits under the marker.

The model has four modules, one per part of the single source file:

- `WheelGeometry` (pure): the touch quadrant, the current rotation in whole degrees, and the section under the marker.
- `WheelGesture` (pure): the fling direction-correction rule table, one deceleration step, the fling's velocity and rotation after k ticks, and the rotation of a run of drag moves.
- `WheelImage` (pure, plus the two source loops as methods): the section list, and the generated image as an ordered list of draw commands.
  The list holds one arc per section, then the separator lines, then the border ring.
- `WheelView` (imperative): the class `PrizeWheelView` with the widget's fields, and the class `FlingRunnable`, one posted fling.
  `PrizeWheelView` covers the setters, deferred generation, the layout callback, the touch handler and the fling handler.
  `FlingRunnable.Run` is one tick of a fling.

Inputs the model takes as parameters:

- The rounded angle decomposed from the rotation matrix: an `int` in [-180, 180].
- The pointer angle computed by `getAngle`: a real carried by the `Down`/`Move` action.
- The marker's degree offset: an `int` in [0, 360).
- The minimum and maximum section counts: constructor parameters with `1 <= min <= max`.
- Resource decoding: a map from drawable id to bitmap. An id that is absent does not decode.
- The view's size at layout: parameters of `OnGlobalLayout`.

Reposting a fling (`post(this)`) is modelled as the caller running `Run` again.
A call of the settle listener is recorded in `settledEvents`.
Java `float`/`double` arithmetic is modelled with exact reals. Java `int` division is kept as integer division, truncated toward zero where the operand can be negative.

Behaviour of the code worth noting:

- A tick that finds `allowRotating` cleared by a new pointer-down still settles and calls the listener (`PrizeWheelView.java:531-534`).
- At rest the decomposed angle is 0. It is reported as rotation 360, so with marker offset 0 the selected section is the last one, not section 0 (`WheelGeometry.RestSelectsLastSection`).
- The code checks no dimensions. A zero width or height fails when the first full-size bitmap, the mask, is allocated (`PrizeWheelView.java:275`). The model reports that failure as `InvalidDimensions`. The same happens at layout when either side is 0: scaling the default image to the smaller side allocates a zero-sized bitmap (`PrizeWheelView.java:114-116`), so the layout callback fails after storing the size and before the touch handler gets it.
- The fling handler measures quadrants about the view's `int` size, halved by integer division (`PrizeWheelView.java:489-490`). The touch handler measures them about its own `double` copy of the size (`PrizeWheelView.java:428`). Both are modelled as written.

## Model

| member | source | states |
|---|---|---|
| `WheelGeometry.Quadrant` | PrizeWheelLib/src/main/java/ve/com/abicelis/prizewheellib/PrizeWheelView.java:209-215 | the result is 1..4 (never 0), and each quadrant holds exactly for its sign pattern of (x, y), with 0 counted as non-negative |
| `WheelGeometry.CurrentRotation` | PrizeWheelLib/src/main/java/ve/com/abicelis/prizewheellib/PrizeWheelView.java:220-229 | a rounded angle in [-180, 180] becomes an angle in [1, 360] that is congruent to it mod 360; 0 becomes 360 |
| `WheelGeometry.SelectedSectionIndex` | PrizeWheelLib/src/main/java/ve/com/abicelis/prizewheellib/PrizeWheelView.java:234-247 | the index is in [0, n-1]; it is the section whose arc [i*360/n, (i+1)*360/n) holds (rotation + offset) mod 360, and the angle 0 mod 360 is clamped to n-1 |
| `WheelGeometry.RestSelectsLastSection` | PrizeWheelLib/src/main/java/ve/com/abicelis/prizewheellib/PrizeWheelView.java:220-247 | at rest with offset 0 the wheel reports rotation 360 and section n-1; with 4 sections and offset 90 it reports section 1 |
| `WheelGesture.InitialVelocity` | PrizeWheelLib/src/main/java/ve/com/abicelis/prizewheellib/PrizeWheelView.java:486-506 | the posted velocity has magnitude abs(vx+vy)/3, and it is the negation of (vx+vy)/3 exactly when the rule table matches, otherwise (vx+vy)/3 |
| `WheelGesture.OneToThreeOnly` | PrizeWheelLib/src/main/java/ve/com/abicelis/prizewheellib/PrizeWheelView.java:493-495 | a fling from quadrant 1 to 3 is inverted; one from 3 to 1 never is |
| `WheelGesture.AcrossTheBottom` | PrizeWheelLib/src/main/java/ve/com/abicelis/prizewheellib/PrizeWheelView.java:499-500 | a fling 2 to 4 or 4 to 2 is inverted if and only if quadrant 3 was touched |
| `WheelGesture.EndpointRules` | PrizeWheelLib/src/main/java/ve/com/abicelis/prizewheellib/PrizeWheelView.java:493-500 | a fling with an end in quadrant 3 is inverted unless it runs 3 to 1; a fling with an end in 1 and none in 3 is never inverted |
| `WheelGesture.LowerLeftFlingReversed` | PrizeWheelLib/src/main/java/ve/com/abicelis/prizewheellib/PrizeWheelView.java:494 | a 3-to-3 fling with velocity (10, 0) starts at -10/3 |
| `WheelGesture.Dampen` | PrizeWheelLib/src/main/java/ve/com/abicelis/prizewheellib/PrizeWheelView.java:527 | one damping step is the inverse of multiplying by 1.025; it keeps the sign and strictly shrinks every non-zero velocity |
| `WheelGesture.VelocityAfterStep` | PrizeWheelLib/src/main/java/ve/com/abicelis/prizewheellib/PrizeWheelView.java:524-529 | the velocity after k + 1 rotating ticks is one `Dampen` step applied to the velocity after k, so the decay lemmas describe repeated rotating ticks |
| `WheelGesture.VelocityKeepsSign` | PrizeWheelLib/src/main/java/ve/com/abicelis/prizewheellib/PrizeWheelView.java:524-530 | over any number of rotating ticks the velocity keeps its sign and never exceeds its start |
| `WheelGesture.DecayBound` | PrizeWheelLib/src/main/java/ve/com/abicelis/prizewheellib/PrizeWheelView.java:524-530 | after k rotating ticks the speed is at most 40/(40+k) of the initial speed |
| `WheelGesture.FlingSettles` | PrizeWheelLib/src/main/java/ve/com/abicelis/prizewheellib/PrizeWheelView.java:525 | after 8*abs(v) rotating ticks the speed is at most the threshold 5, so the tick stops rotating |
| `WheelGesture.FlingRotationClosedForm` | PrizeWheelLib/src/main/java/ve/com/abicelis/prizewheellib/PrizeWheelView.java:526-527 | the rotation applied by k ticks, the sum of velocity/75, equals 41/75 of the velocity used up |
| `WheelGesture.FlingRotationBound` | PrizeWheelLib/src/main/java/ve/com/abicelis/prizewheellib/PrizeWheelView.java:524-530 | a fling turns the wheel in the direction of its initial velocity, by at most 41/75 of its speed |
| `WheelGesture.DragTelescopes` | PrizeWheelLib/src/main/java/ve/com/abicelis/prizewheellib/PrizeWheelView.java:416-420 | the rotations applied by a run of moves add up to the first start angle minus the last angle |
| `WheelImage.ArcStart` | PrizeWheelLib/src/main/java/ve/com/abicelis/prizewheellib/PrizeWheelView.java:260-261 | arc i of n starts at the angle a with a*n = 360*i, inside [0, 360] |
| `WheelImage.FirstFailure` | PrizeWheelLib/src/main/java/ve/com/abicelis/prizewheellib/PrizeWheelView.java:303-325 | the index of the first section with a missing bitmap or a drawable that does not decode; all sections before it can be drawn |
| `WheelImage.ArcsFollowSections` | PrizeWheelLib/src/main/java/ve/com/abicelis/prizewheellib/PrizeWheelView.java:281-342 | there is one arc per section, in order; colour sections are filled directly and every other section is drawn masked |
| `WheelImage.ArcsTileTheCircle` | PrizeWheelLib/src/main/java/ve/com/abicelis/prizewheellib/PrizeWheelView.java:260-261 | the first arc starts at 0, each arc starts where the previous one ends, and the last ends at 360 |
| `WheelImage.DrawSections` | PrizeWheelLib/src/main/java/ve/com/abicelis/prizewheellib/PrizeWheelView.java:281-342 | the section loop with its running start angle gives exactly the arcs of the closed-form layout, or the error for the first section that cannot be drawn |
| `WheelImage.TruncDiv2` | PrizeWheelLib/src/main/java/ve/com/abicelis/prizewheellib/PrizeWheelView.java:376 | Java's int halving, rounded toward zero for negative operands too |
| `WheelImage.SeparatorsOnBoundaries` | PrizeWheelLib/src/main/java/ve/com/abicelis/prizewheellib/PrizeWheelView.java:356-361 | there is one separator per section, and separator i lies on the angle where arc i starts |
| `WheelImage.DrawSeparators` | PrizeWheelLib/src/main/java/ve/com/abicelis/prizewheellib/PrizeWheelView.java:352-365 | the separator loop draws line i from the centre at 360*i/n degrees, with radius min(w, h)/2 |
| `WheelImage.RenderWheelShape` | PrizeWheelLib/src/main/java/ve/com/abicelis/prizewheellib/PrizeWheelView.java:255-382 | generation succeeds exactly when sections are set, both sides are positive and every section can be drawn; the image is then the arcs, then n separator lines if a separator colour is set, then the border ring if a border colour is set |
| `WheelView.SectionCountBounds` | PrizeWheelLib/src/main/java/ve/com/abicelis/prizewheellib/PrizeWheelView.java:141-142 | a list is accepted exactly when its size is within [min, max]; min-1, max+1 and a missing list are refused |
| `WheelView.PrizeWheelView.constructor` | PrizeWheelLib/src/main/java/ve/com/abicelis/prizewheellib/PrizeWheelView.java:43-59 | the field defaults: no size, all quadrant slots false, rotation allowed, no colours (-1), thickness 10, marker offset 0 |
| `WheelView.PrizeWheelView.SetWheelSections` | PrizeWheelLib/src/main/java/ve/com/abicelis/prizewheellib/PrizeWheelView.java:140-145 | it throws exactly when the list is missing or its size is out of bounds, and then keeps the old sections; otherwise it stores the list |
| `WheelView.PrizeWheelView.SetMarkerPosition` | PrizeWheelLib/src/main/java/ve/com/abicelis/prizewheellib/PrizeWheelView.java:147-149 | stores the marker offset |
| `WheelView.PrizeWheelView.SetWheelBorderLineColor` | PrizeWheelLib/src/main/java/ve/com/abicelis/prizewheellib/PrizeWheelView.java:151-153 | stores the border colour |
| `WheelView.PrizeWheelView.SetWheelBorderLineThickness` | PrizeWheelLib/src/main/java/ve/com/abicelis/prizewheellib/PrizeWheelView.java:155-158 | a negative thickness is ignored; otherwise it is stored |
| `WheelView.PrizeWheelView.SetWheelSeparatorLineColor` | PrizeWheelLib/src/main/java/ve/com/abicelis/prizewheellib/PrizeWheelView.java:160-162 | stores the separator colour |
| `WheelView.PrizeWheelView.SetWheelSeparatorLineThickness` | PrizeWheelLib/src/main/java/ve/com/abicelis/prizewheellib/PrizeWheelView.java:164-167 | a negative thickness is ignored; otherwise it is stored |
| `WheelView.PrizeWheelView.SetWheelSettledListener` | PrizeWheelLib/src/main/java/ve/com/abicelis/prizewheellib/PrizeWheelView.java:169-171 | sets or removes the listener |
| `WheelView.PrizeWheelView.GenerateWheelImage` | PrizeWheelLib/src/main/java/ve/com/abicelis/prizewheellib/PrizeWheelView.java:255-382 | on success the displayed image becomes the rendered command list; on any error it throws that error and the displayed image is unchanged |
| `WheelView.PrizeWheelView.GenerateWheel` | PrizeWheelLib/src/main/java/ve/com/abicelis/prizewheellib/PrizeWheelView.java:173-178 | with height 0 it only sets the deferred-generation flag; otherwise it generates |
| `WheelView.PrizeWheelView.OnGlobalLayout` | PrizeWheelLib/src/main/java/ve/com/abicelis/prizewheellib/PrizeWheelView.java:107-131 | once both sides are known, a later layout changes nothing; until then it takes the size; a zero side then fails with `InvalidDimensions` and leaves the touch handler and image as they were; otherwise it passes the size to the touch handler and generates if generation was deferred |
| `WheelView.PrizeWheelView.ResetQuadrants` | PrizeWheelLib/src/main/java/ve/com/abicelis/prizewheellib/PrizeWheelView.java:200-204 | after the loop all 5 slots are false |
| `WheelView.PrizeWheelView.TouchQuadrant` | PrizeWheelLib/src/main/java/ve/com/abicelis/prizewheellib/PrizeWheelView.java:428 | the quadrant of a touch, about the touch handler's centre, is in 1..4 |
| `WheelView.PrizeWheelView.FlingQuadrant` | PrizeWheelLib/src/main/java/ve/com/abicelis/prizewheellib/PrizeWheelView.java:489-490 | the quadrant of a fling end, about the integer-halved centre, is in 1..4 |
| `WheelView.PrizeWheelView.OnTouch` | PrizeWheelLib/src/main/java/ve/com/abicelis/prizewheellib/PrizeWheelView.java:405-434 | Down clears the history, takes the start angle and clears allowRotating; Move rotates by start minus current angle and takes the current angle; Up sets allowRotating. After any event exactly the event's quadrant slot is set, other slots change only by Down's clearing, and slot 0 is never set |
| `WheelView.PrizeWheelView.OnFling` | PrizeWheelLib/src/main/java/ve/com/abicelis/prizewheellib/PrizeWheelView.java:486-509 | posts a new fling whose velocity is the rule-table velocity for the two end quadrants and the quadrant-3 history slot |
| `WheelView.PrizeWheelView.SettleEventAt` | PrizeWheelLib/src/main/java/ve/com/abicelis/prizewheellib/PrizeWheelView.java:533 | the listener gets a section index in [0, n-1] and a rotation in [1, 360] |
| `WheelView.FlingRunnable.constructor` | PrizeWheelLib/src/main/java/ve/com/abicelis/prizewheellib/PrizeWheelView.java:519-521 | a posted fling holds its initial velocity |
| `WheelView.FlingRunnable.Run` | PrizeWheelLib/src/main/java/ve/com/abicelis/prizewheellib/PrizeWheelView.java:524-536 | above speed 5 with rotation allowed, it rotates by v/75, damps v and reposts; otherwise it neither rotates nor damps. It records a settle event if a listener is set, also after a pointer-down interrupted the fling. A settling tick with a listener set fails when no sections are set |

## Left out

- Pixel compositing is not modelled: canvases, `drawArc`, masking with `DST_IN`, `drawBitmap`, `drawLine`, `drawCircle` and bitmap allocation. A draw command records only what is drawn, where and in which order. The arc bounding box inset by 2 pixels is not recorded.
- Colour resolution is not modelled. A colour is recorded as its resource id; `ContextCompat.getColor` is not part of this model.
- The two drawable-decoding error messages (resource name found or not) are one error here, `InvalidWheelSectionData` with the section's index. The source's unreachable `default` branch has no counterpart, because a section is one of three variants.
- Trigonometry is not modelled. `Math.atan2` in `getAngle` and in `getCurrentRotation`, the matrix decomposition, and `cos`/`sin` for the separator end points all become inputs or are left out. A separator line records its angle in degrees.
- Floating point: velocities and angles are exact reals. The float rounding of `360.0f / n` and of `1.025F` is not modelled, so the "rounding errors" clamp in `getCurrentSelectedSectionIndex` fires only at the exact boundary.
- `WheelView.PrizeWheelView.SettleEventAt`: the rotation passed to the listener is computed from the rounded angle the caller supplies. The model does not tie that angle to the accumulated `rotation` field, because the decomposition is left out.
- The Android plumbing is not modelled: `GestureDetector` (which decides when an up event is a fling and calls the fling handler), `MotionEvent`, `View.post` scheduling, `ViewTreeObserver` registration, `init`, the scaled default image itself and its centring (only the failure of its allocation for a zero side is kept), `setImageBitmap` and `setImageMatrix`.
- `WheelView.PrizeWheelView.SetWheelSections`: the code holds the caller's section list by reference and reads its size and contents again later. The model does not capture changes the caller makes to that list after `SetWheelSections`, because it keeps its own copy. So the size bound checked on entry holds at every later read, and the index passed to the listener is never negative. An emptied list would make the code report index -1 and draw no arcs.
- The process-wide static `imageOriginal`, `imageScaled` and `matrix` are not modelled as shared state. Rotation is a per-instance field.
- Termination of the reposting fling over floats is not modelled. The model proves that every rotating tick shrinks the speed, and that with exact reals at most 8*abs(v) rotating ticks can run.
- The other gesture callbacks (`onDown`, `onShowPress`, `onSingleTapUp`, `onScroll`, `onLongPress`) are not modelled. They do nothing or return false.
