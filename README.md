# NoMice gesture controller in Dafny

This project models the per-frame gesture interpreter of the NoMice hand
mouse and proves what it does. The interpreter is the class
`MouseGestureController`, together with the geometry helpers `clamp`, `lerp`
and `distance_2d` that it calls.

Each call of `update` receives one tracked hand as normalized landmarks and
does four things:

1. It maps the index fingertip through an inset "active region" of the
   camera frame onto the screen. It then blends that target into the
   persisted cursor by linear interpolation and moves the pointer there.
2. While index and middle fingers are both raised and the thumb is away from
   the index finger (the scroll gate), it keeps the last five average
   fingertip heights and scrolls by the last height change. The history is
   emptied whenever the gate is closed.
3. It runs two edge-triggered click latches: thumb-index for the left
   button, thumb-middle for the right button.
4. It sets the mode label shown on the overlay.

Files:

- `geometry.dfy` (module `Geometry`): `clamp`, `lerp`, and the Euclidean
  distance with the threshold comparisons the controller makes on it.
- `hand.dfy` (module `Hand`): the landmark and hand records and the landmark
  numbers the controller reads.
- `gesture_controller.dfy` (module `GestureController`):
  - the pure specification of one frame: `Read` turns a hand into a
    `Reading`, `Advance` applies a reading to the state, and `Step` is the
    two together;
  - the class `MouseGestureController`, whose fields change in place. Its
    method `Update` is proved to leave exactly the state `Step` describes
    and to return the events `Step` describes.
- `gesture_properties.dfy` (module `GestureProperties`): per-frame and
  whole-run properties, and worked examples.

The pointer calls of the original (`moveTo`, `click`, `scroll`) become
values of type `Event`, returned in the order they are issued. The mode
strings become the datatype `Mode`.

## Model

| member | source | states |
|---|---|---|
| `Hand.FullHandHasControlLandmarks` | hand_tracker.py:22-25 | A hand with all 21 landmarks has every landmark the controller reads |
| `Hand.Extended` | gesture_controller.py:67-69 | A tip level with its joint does not count as raised: the comparison is strict |
| `Geometry.Clamp` | utils.py:5-7 | For lo <= hi the result lies in [lo, hi], is v when v is already there, lo below the range and hi above it; for lo > hi it is lo, because the maximum is taken last |
| `Geometry.ClampIdempotent` | utils.py:5-7 | Clamping twice equals clamping once, for every range |
| `Geometry.ClampMonotone` | utils.py:5-7 | Clamping preserves the order of two values |
| `Geometry.Lerp` | utils.py:10-12 | t = 0 gives start, t = 1 gives end, t in [0, 1] stays between the two, and the remaining gap to end is (1 - t) times the old one |
| `Geometry.LerpBetween` | utils.py:10-12 | For t in [0, 1], start + (end - start) * t lies between start and end |
| `Geometry.IsDistance` | utils.py:15-17 | A distance between two points is zero exactly when the points coincide |
| `Geometry.DistanceUnique` | utils.py:15-17 | The distance relation has at most one value per pair of points |
| `Geometry.DistanceSymmetric` | utils.py:15-17 | The distance is symmetric in its two points |
| `Geometry.DistanceToSelf` | utils.py:15-17 | The distance of a point to itself is 0 and nothing else |
| `Geometry.DistanceScaled` | utils.py:15-17 | Shrinking both offsets to a fixed point by k >= 0 shrinks the distance by k |
| `Geometry.DistanceBelow` | gesture_controller.py:85 | No distance is below a threshold <= 0; two coinciding points are below every positive threshold |
| `Geometry.DistanceAbove` | gesture_controller.py:78 | Every distance is above a negative threshold; two coinciding points are above no threshold >= 0 |
| `Geometry.DistanceBelowIff` | gesture_controller.py:85 | The square-based test is exactly `distance < threshold`, for every threshold sign |
| `Geometry.DistanceAboveIff` | gesture_controller.py:78 | The square-based test is exactly `distance > threshold`, for every threshold sign |
| `Geometry.DistanceBelowExcludesAbove` | gesture_controller.py:78-85 | No distance is both below and above the same threshold |
| `GestureController.Rescale` | gesture_controller.py:128-129 | A coordinate in the region maps into [0, screen size]; the region's lower edge maps to 0 and its upper edge to the screen size |
| `GestureController.RescaleMonotone` | gesture_controller.py:128-129 | Rescaling preserves order |
| `GestureController.MapPixel` | gesture_controller.py:118-129 | Any camera pixel, inside or outside the frame, maps into [0, screen size]; with a margin above half the frame everything maps to 0 |
| `GestureController.MapPixelEdges` | gesture_controller.py:118-129 | Pixels at or beyond the region's edges reach the screen's edges |
| `GestureController.MapPixelMonotone` | gesture_controller.py:118-129 | The pixel mapping preserves order |
| `GestureController.MapAxis` | gesture_controller.py:115-129 | Any normalized finger coordinate, including values outside [0, 1], maps into [0, screen size] |
| `GestureController.MapTarget` | gesture_controller.py:115-129 | The screen target of the fingertip is on the screen |
| `GestureController.SmoothCursor` | gesture_controller.py:132-135 | The remaining gap to the target is (1 - factor) times the old gap on each axis; for a factor in [0, 1] the cursor stays between the old cursor and the target |
| `GestureController.Truncate` | gesture_controller.py:150 | Python `int()` on a float: truncation toward zero, not floor, for both signs |
| `GestureController.ScrollAmount` | gesture_controller.py:149-150 | Equal samples give 0; with a positive sensitivity, a positive amount means upward motion and a negative one downward motion |
| `GestureController.PushSample` | gesture_controller.py:144 | Appending to the bounded history: the new sample is last, and the length grows by one up to the capacity 5 |
| `GestureController.PushSampleWindow` | gesture_controller.py:49 | The bounded history is the last five of the old history followed by the sample, so a full deque evicts its oldest element |
| `GestureController.ScrollEvents` | gesture_controller.py:146-154 | At most one scroll; none with fewer than two samples; otherwise one exactly when the truncated amount between the last two samples exceeds 1 in magnitude, and then by that amount |
| `GestureController.LatchStep` | gesture_controller.py:85-90 | A click fires exactly when the pinch is closed and the latch clear; afterwards the latch equals the pinch, so only an open pinch clears it |
| `GestureController.NextMode` | gesture_controller.py:80-106 | Move wins; otherwise right click over left click over scroll; with none of these the label is kept |
| `GestureController.BothExtended` | gesture_controller.py:78 | The two-finger pose fails when either fingertip is level with its joint |
| `GestureController.LeftPinched` | gesture_controller.py:85 | A left pinch needs a positive threshold and excludes an open pinch; touching thumb and index tips pinch for every positive threshold |
| `GestureController.LeftPinchOpen` | gesture_controller.py:78 | A negative threshold always counts as open; touching thumb and index tips are open only then |
| `GestureController.RightPinched` | gesture_controller.py:93 | A right pinch needs a positive threshold; touching thumb and middle tips pinch for every positive threshold |
| `GestureController.ScrollGate` | gesture_controller.py:77-78 | The scroll gate implies both fingers raised and no left pinch |
| `GestureController.MoveGate` | gesture_controller.py:100-105 | The Move condition excludes the scroll gate and both pinches |
| `GestureController.Read` | gesture_controller.py:61-105 | The scroll gate never holds together with a left pinch, and the Move condition excludes the scroll gate and both pinches |
| `GestureController.InitialState` | gesture_controller.py:48-54 | A fresh controller has its cursor midway between the screen's edges on both axes, an empty history, clear latches and the Idle label |
| `GestureController.ScrollSample` | gesture_controller.py:143 | The scroll sample lies between the two fingertip heights, equally far from both |
| `GestureController.FrameEvents` | gesture_controller.py:71-98 | A frame's action list starts with the move to the new cursor and, besides it, holds one entry per scroll and one per fired click |
| `GestureController.Advance` | gesture_controller.py:56-106 | After a frame each latch equals its pinch reading, the history is non-empty exactly when the scroll gate was open and stays within 5 samples, and the first event moves the pointer to the new cursor |
| `GestureController.Step` | gesture_controller.py:56-106 | After update on a hand, the left latch is set exactly when the thumb-index distance is below its threshold, the right latch likewise, and the history is non-empty exactly when the scroll gate holds |
| `GestureController.InitialStateValid` | gesture_controller.py:48-54 | The initial state (cursor at screen centre, empty history, clear latches, Idle) satisfies the invariant |
| `GestureController.AdvancePreservesInvariant` | gesture_controller.py:132-144 | After any frame the history holds at most 5 samples and, for a factor in [0, 1], an on-screen cursor stays on screen |
| `GestureController.MouseGestureController.constructor` | gesture_controller.py:28-54 | Stores the configuration with the original's defaults and starts in the initial state |
| `GestureController.MouseGestureController.MoveCursor` | gesture_controller.py:108-136 | The original's steps (scale to camera pixels, clamp into the region, rescale, lerp) leave the cursor at SmoothCursor of the old cursor and MapTarget, and issue the move there |
| `GestureController.MouseGestureController.HandleScroll` | gesture_controller.py:138-154 | The deque append with eviction leaves PushSample of the old history, and the scroll issued is ScrollEvents of the new history |
| `GestureController.MouseGestureController.ScrollGesture` | gesture_controller.py:77-82 | With the gate open the sample is tracked and the label is Scroll; with it closed the history is emptied |
| `GestureController.MouseGestureController.LeftClickLatch` | gesture_controller.py:84-90 | The left latch and the click follow LatchStep, and a click sets the Left Click label |
| `GestureController.MouseGestureController.RightClickLatch` | gesture_controller.py:92-98 | The right latch and the click follow LatchStep, and a click sets the Right Click label |
| `GestureController.MouseGestureController.Apply` | gesture_controller.py:71-106 | Every field ends as Advance describes, and the events are the move, the scroll, then the clicks |
| `GestureController.MouseGestureController.Update` | gesture_controller.py:56-106 | Update keeps the invariant, and its new state and events are exactly Step of the old state |
| `GestureProperties.FrameEventsFacts` | gesture_controller.py:71-98 | A frame's action list starts with the move and has no other, holds each click exactly when it fired, and holds exactly the given scrolls |
| `GestureProperties.FrameFacts` | gesture_controller.py:71-98 | The same facts for the list Advance computes |
| `GestureProperties.MovesCursorFirstAndOnce` | gesture_controller.py:71-72 | Every frame moves the pointer exactly once, first, to the new cursor, whatever the gesture |
| `GestureProperties.CursorApproachesTarget` | gesture_controller.py:132-135 | For a factor of at most 1, the cursor's distance to the frame's target becomes (1 - factor) times the old distance |
| `GestureProperties.SmoothingShrinksDistance` | gesture_controller.py:132-135 | One smoothing step scales the distance to the target by 1 - factor |
| `GestureProperties.LeftClickEdge` | gesture_controller.py:85-90 | A left click happens exactly when the thumb-index distance is below the threshold and the latch is clear; afterwards the latch is set exactly when that distance is below the threshold |
| `GestureProperties.RightClickEdge` | gesture_controller.py:93-98 | The same rule for the right click, on the thumb-middle distance and its own threshold |
| `GestureProperties.ClickRule` | gesture_controller.py:84-98 | Which clicks a reading issues, and the latches it leaves |
| `GestureProperties.LatchesIndependent` | gesture_controller.py:84-98 | Changing the left pinch or the left latch never changes the right latch or the right click, and the other way round |
| `GestureProperties.ScrollExcludesLeftClick` | gesture_controller.py:78-85 | A frame with the scroll gate open, or with a scroll, has no left click |
| `GestureProperties.ScrollEventRule` | gesture_controller.py:77-82 | A frame scrolls exactly by ScrollEvents of the new history when the gate is open, and not at all otherwise |
| `GestureProperties.ScrollHistoryRule` | gesture_controller.py:77-82 | A closed gate empties the history; an open one appends the sample, even when no scroll follows, and the oldest sample drops out once five are kept |
| `GestureProperties.ScrollDirection` | gesture_controller.py:149-154 | With a positive sensitivity, a scroll up means the fingers rose (y decreased) and a scroll down means they fell |
| `GestureProperties.ModeRule` | gesture_controller.py:80-106 | The label after a frame is Move under the Move condition, otherwise Right Click, Left Click or Scroll in that priority, else unchanged; Scroll and Move are never both called for |
| `GestureProperties.GatesByDistance` | gesture_controller.py:74-105 | The scroll gate and the Move condition in terms of the two pinch distances, as the original compares them |
| `GestureProperties.Run` | gesture_controller.py:56-106 | Running update over a sequence of hands yields one event list per hand |
| `GestureProperties.RunPreservesInvariant` | gesture_controller.py:132-144 | Every run keeps the invariant |
| `GestureProperties.ReachableStatesOnScreen` | gesture_controller.py:48-49 | From a fresh controller with a factor in [0, 1], after any run the cursor is on screen and the history holds at most 5 samples |
| `GestureProperties.ClickTrace` | gesture_controller.py:85-90 | One latch over a sequence of pinch readings yields one click flag per frame |
| `GestureProperties.RisingEdgeShift` | gesture_controller.py:85-90 | Dropping the first frame keeps every later rising edge in place |
| `GestureProperties.ClickTraceRisingEdges` | gesture_controller.py:85-90 | A latch clicks exactly on the rising edges of its pinch, so holding a pinch clicks once |
| `GestureProperties.ButtonRule` | gesture_controller.py:84-98 | For either button, one frame clicks exactly when its latch fires, and its latch then records its pinch |
| `GestureProperties.Pinches` | gesture_controller.py:85-93 | The per-frame pinch readings of one button over a run |
| `GestureProperties.RunClicksOnRisingEdges` | gesture_controller.py:84-98 | Over a whole run, each button clicks exactly in the frames where its pinch closes after having been open |
| `GestureProperties.Below` | gesture_controller.py:85 | The per-frame `distance < threshold` readings of a sequence of distances |
| `GestureProperties.ClickTraceExample` | gesture_controller.py:85-90 | Distances 0.05, 0.02, 0.02, 0.02, 0.05, 0.02 against 0.035 click on frames 2 and 6 only |
| `GestureProperties.ScrollExamples` | gesture_controller.py:143-154 | With sensitivity 30: a rise of 0.25 scrolls by 750, a fall by -750, a rise of 2^-8 by 11, and a rise of 2^-12 not at all |

## Left out

- `FPSCounter` (utils.py:20-40): it reads the wall clock and only feeds the overlay.
- `draw_interaction_zone`: OpenCV drawing only.
- hand_tracker.py is not part of this model beyond the shapes of `LandmarkPoint` and `HandData`. MediaPipe detection, the model download and landmark drawing are foreign code.
- main.py is not part of this model: the webcam loop, the overlay and the key handling are I/O.
- `pyautogui.moveTo`, `click` and `scroll` are foreign OS calls. They are returned as `Event`s, and the `_pause=False` flag of `moveTo` is not represented.
- `pyautogui.size()` is an OS query. The screen size is a constructor parameter instead.
- Floating point: coordinates are exact reals, so IEEE rounding is not modelled. For example, in floats `0.5 - 0.4` times 3000 truncates to 299, while the model gives 300. The samples in `ScrollExamples` are all exact in binary (0.25, 0.5, 0.75, 2^-8 and 2^-12 offsets), and so are the products the original forms from them, so there the model and the floats agree.
- `distance_2d` is not computed, because there is no square root on reals. `IsDistance` relates a distance to its two points. The pinch tests compare squared distances with squared thresholds, which is proved equal to comparing the distances themselves for any threshold sign.
- The mapping requires `2 * margin != camera size` on both axes, since only equality makes the original divide by zero. With a margin above half the frame, the clamp returns its lower bound and the target is 0. This is handled rather than excluded.
- The model requires a hand with at least 13 landmarks, the most the controller indexes. The tracker always supplies 21.
- `HandleScroll` and `ScrollGesture` require at most 5 samples in the history, which the deque's `maxlen` guarantees. `Valid` carries this between frames.
- MapAxis: its order preservation is proved on camera pixels (`MapPixelMonotone`), not on the normalized finger coordinate. The product of the coordinate with the frame size is left out of that lemma.
- Smoothing over several frames with the finger held still is not stated. Only the per-frame contraction `CursorApproachesTarget` is proved.
- `update` is one method in the original. Here `Update` reads the hand with the pure `Read` and applies the reading through `Apply`, which calls one helper method per branch (`MoveCursor`, `ScrollGesture`, `LeftClickLatch`, `RightClickLatch`) in the original's order.
