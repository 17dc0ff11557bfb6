/** The per-frame gesture interpreter (gesture_controller.py).

    Every call of `Update` takes one hand and
      1. maps the index fingertip through the inset active region of the
         camera frame onto the screen and blends it into the persisted
         cursor (always, whatever gesture is present);
      2. keeps a short history of the average index/middle fingertip height
         while both fingers are raised and the thumb is away from the index
         finger, and scrolls by the last height change; the history is
         emptied whenever that gate is closed;
      3. runs two edge-triggered click latches, thumb-index for the left
         button and thumb-middle for the right button;
      4. updates the mode label shown by the overlay.

    The pointer calls of the original (moveTo, click, scroll) are returned as
    `Event`s, in the order they are issued. The pure function `Step` states
    what one call does to the state; the class method `Update` does it in
    place and is proved to agree with `Step`. */
module GestureController {
  import opened Geometry
  import opened Hand

  // Defaults of the controller's constructor.
  const DEFAULT_SMOOTHING_FACTOR: real := 0.25
  const DEFAULT_MOVEMENT_MARGIN: int := 100
  const DEFAULT_LEFT_PINCH_THRESHOLD: real := 0.035
  const DEFAULT_RIGHT_PINCH_THRESHOLD: real := 0.04
  const DEFAULT_SCROLL_SENSITIVITY: int := 30

  /** The scroll history is a deque bounded to this many samples. */
  const HISTORY_CAPACITY: nat := 5

  /** A cursor position in screen pixels. */
  datatype SmoothPoint = SmoothPoint(x: real, y: real)

  datatype Button = Left | Right

  /** The pointer actions the controller asks the operating system for. */
  datatype Event = MoveTo(x: real, y: real) | Click(button: Button) | ScrollBy(amount: int)

  /** The label the overlay shows; the controller starts in Idle. */
  datatype Mode = Idle | Move | Scroll | LeftClick | RightClick

  /** The constructor's parameters, and the screen size the original asks
      the operating system for. */
  datatype Config = Config(
    cameraWidth: int,
    cameraHeight: int,
    screenWidth: nat,
    screenHeight: nat,
    smoothingFactor: real,
    margin: int,
    leftPinchThreshold: real,
    rightPinchThreshold: real,
    scrollSensitivity: int)

  /** What the controller remembers from one frame to the next. */
  datatype ControllerState = ControllerState(
    prevCursor: SmoothPoint,
    scrollHistory: seq<real>,
    leftClickLatched: bool,
    rightClickLatched: bool,
    currentMode: Mode)

  datatype StepResult = StepResult(state: ControllerState, events: seq<Event>)

  /** The result of one click latch for one frame. */
  datatype Latch = Latch(fire: bool, latched: bool)

  function Abs(n: int): nat { if n < 0 then -n else n }

  /** Mapping divides by the active region's width and height,
      size - 2 * margin; only a zero there is fatal. */
  predicate MappingDefined(cfg: Config)
  {
    2 * cfg.margin != cfg.cameraWidth && 2 * cfg.margin != cfg.cameraHeight
  }

  predicate OnScreen(cfg: Config, p: SmoothPoint)
  {
    0.0 <= p.x <= cfg.screenWidth as real && 0.0 <= p.y <= cfg.screenHeight as real
  }

  /** A ratio of a part to a positive whole lies in [0, 1]. */
  lemma UnitRatio(part: real, whole: real)
    requires 0.0 < whole && 0.0 <= part <= whole
    ensures 0.0 <= part / whole <= 1.0
  {
    var q := part / whole;
    assert q * whole == part;
  }

  lemma ZeroOver(w: real)
    requires w != 0.0
    ensures 0.0 / w == 0.0
  {
    var q := 0.0 / w;
    assert q * w == 0.0;
  }

  lemma SelfOver(w: real)
    requires w != 0.0
    ensures w / w == 1.0
  {
  }

  lemma ScaleMonotone(a: real, b: real, c: real)
    requires a <= b && 0.0 <= c
    ensures a * c <= b * c
  {
    assert b * c - a * c == (b - a) * c;
  }

  lemma DivideMonotone(a: real, b: real, d: real)
    requires a <= b && 0.0 < d
    ensures a / d <= b / d
  {
    var qa, qb := a / d, b / d;
    assert qa * d == a;
    assert qb * d == b;
    assert (qb - qa) * d == b - a;
    if qb < qa {
      ScaleMonotone(qb, qa, d);
    }
  }

  lemma RescaleFacts(c: real, lo: real, hi: real, s: real)
    requires lo != hi
    ensures lo < hi && lo <= c <= hi && 0.0 <= s ==> 0.0 <= (c - lo) / (hi - lo) * s <= s
    ensures c == lo ==> (c - lo) / (hi - lo) * s == 0.0
    ensures c == hi ==> (c - lo) / (hi - lo) * s == s
  {
    var q := (c - lo) / (hi - lo);
    assert q * (hi - lo) == c - lo;
    if lo < hi && lo <= c <= hi && 0.0 <= s {
      UnitRatio(c - lo, hi - lo);
      ScaleWithinUnit(s, q);
      assert q * s == s * q;
    }
    if c == lo {
      ZeroOver(hi - lo);
      assert q == 0.0;
    }
    if c == hi {
      SelfOver(hi - lo);
      assert q == 1.0;
    }
  }

  /** Rescales a camera coordinate c from the region [lo, hi] to [0, s]:
      the region's ends go to the ends of the target range. */
  function Rescale(c: real, lo: real, hi: real, s: real): (t: real)
    requires lo != hi
    ensures lo < hi && lo <= c <= hi && 0.0 <= s ==> 0.0 <= t <= s
    ensures c == lo ==> t == 0.0
    ensures c == hi ==> t == s
  {
    RescaleFacts(c, lo, hi, s);
    (c - lo) / (hi - lo) * s
  }

  /** Rescaling never reverses the order of two coordinates. */
  lemma RescaleMonotone(c1: real, c2: real, lo: real, hi: real, s: real)
    requires lo < hi && c1 <= c2 && 0.0 <= s
    ensures Rescale(c1, lo, hi, s) <= Rescale(c2, lo, hi, s)
  {
    var q1, q2 := (c1 - lo) / (hi - lo), (c2 - lo) / (hi - lo);
    DivideMonotone(c1 - lo, c2 - lo, hi - lo);
    ScaleMonotone(q1, q2, s);
    assert Rescale(c1, lo, hi, s) == q1 * s;
    assert Rescale(c2, lo, hi, s) == q2 * s;
  }

  /** One axis of the cursor mapping from camera pixels: the pixel is
      clamped into the active region [margin, size - margin] and rescaled
      from that region to [0, screenSize]. The result is on the screen for
      every pixel. If the margin exceeds half the frame the region is
      empty, the clamp returns its lower end and every pixel maps to 0. */
  function MapPixel(pixel: real, cameraSize: int, margin: int, screenSize: nat): (t: real)
    requires 2 * margin != cameraSize
    ensures 0.0 <= t <= screenSize as real
    ensures cameraSize < 2 * margin ==> t == 0.0
  {
    var lo := margin as real;
    var hi := (cameraSize - margin) as real;
    Rescale(Clamp(pixel, lo, hi), lo, hi, screenSize as real)
  }

  /** The region's edges, and every pixel beyond them, reach the screen's
      edges. */
  lemma MapPixelEdges(pixel: real, cameraSize: int, margin: int, screenSize: nat)
    requires 2 * margin < cameraSize
    ensures pixel <= margin as real ==> MapPixel(pixel, cameraSize, margin, screenSize) == 0.0
    ensures (cameraSize - margin) as real <= pixel ==>
              MapPixel(pixel, cameraSize, margin, screenSize) == screenSize as real
  {
  }

  /** The mapping never reverses the order of two pixels. */
  lemma MapPixelMonotone(p1: real, p2: real, cameraSize: int, margin: int, screenSize: nat)
    requires 2 * margin != cameraSize
    requires p1 <= p2
    ensures MapPixel(p1, cameraSize, margin, screenSize) <= MapPixel(p2, cameraSize, margin, screenSize)
  {
    if 2 * margin < cameraSize {
      var lo := margin as real;
      var hi := (cameraSize - margin) as real;
      ClampMonotone(p1, p2, lo, hi);
      RescaleMonotone(Clamp(p1, lo, hi), Clamp(p2, lo, hi), lo, hi, screenSize as real);
    }
  }

  /** One axis of the cursor mapping: a normalized finger coordinate is
      scaled to camera pixels and mapped from there. */
  function MapAxis(finger: real, cameraSize: int, margin: int, screenSize: nat): (t: real)
    requires 2 * margin != cameraSize
    ensures 0.0 <= t <= screenSize as real
  {
    MapPixel(finger * (cameraSize as real), cameraSize, margin, screenSize)
  }

  /** The screen target of the index fingertip. */
  function MapTarget(cfg: Config, fingerX: real, fingerY: real): (p: SmoothPoint)
    requires MappingDefined(cfg)
    ensures OnScreen(cfg, p)
  {
    SmoothPoint(
      MapAxis(fingerX, cfg.cameraWidth, cfg.margin, cfg.screenWidth),
      MapAxis(fingerY, cfg.cameraHeight, cfg.margin, cfg.screenHeight))
  }

  /** Exponential smoothing: the new cursor closes the fraction `factor` of
      the gap to the target on each axis, staying between the old cursor and
      the target when the factor is in [0, 1]. */
  function SmoothCursor(prev: SmoothPoint, target: SmoothPoint, factor: real): (p: SmoothPoint)
    ensures p.x - target.x == (1.0 - factor) * (prev.x - target.x)
    ensures p.y - target.y == (1.0 - factor) * (prev.y - target.y)
    ensures 0.0 <= factor <= 1.0 ==>
              Min(prev.x, target.x) <= p.x <= Max(prev.x, target.x) &&
              Min(prev.y, target.y) <= p.y <= Max(prev.y, target.y)
  {
    SmoothPoint(Lerp(prev.x, target.x, factor), Lerp(prev.y, target.y, factor))
  }

  /** Python's int() on a float: truncation toward zero. */
  function Truncate(x: real): (n: int)
    ensures 0.0 <= x ==> 0 <= n && n as real <= x < n as real + 1.0
    ensures x < 0.0 ==> n <= 0 && n as real - 1.0 < x <= n as real
  {
    if 0.0 <= x then x.Floor else -((-x).Floor)
  }

  /** The scroll amount for a change of fingertip height from `earlier` to
      `later`. With a positive sensitivity, upward motion (y decreasing)
      scrolls by a positive amount and downward motion by a negative one. */
  function ScrollAmount(earlier: real, later: real, sensitivity: int): (n: int)
    ensures earlier == later ==> n == 0
    ensures 0 < sensitivity && 0 < n ==> later < earlier
    ensures 0 < sensitivity && n < 0 ==> earlier < later
  {
    var delta := earlier - later;
    var scale := sensitivity as real * 100.0;
    ScaledChangeSign(delta, scale);
    Truncate(delta * scale)
  }

  /** A positive scale keeps the sign of the change it multiplies. */
  lemma ScaledChangeSign(delta: real, s: real)
    ensures delta == 0.0 ==> delta * s == 0.0
    ensures 0.0 < s && delta < 0.0 ==> delta * s < 0.0
    ensures 0.0 < s && 0.0 < delta ==> 0.0 < delta * s
  {
    if 0.0 < s && delta < 0.0 {
      MulNonNeg(-delta, s);
      assert (-delta) * s == -(delta * s);
      assert (-delta) * s != 0.0;
    } else if 0.0 < s && 0.0 < delta {
      MulNonNeg(delta, s);
      assert delta * s != 0.0;
    }
  }

  /** Appending to a deque with maxlen HISTORY_CAPACITY: the newest sample
      is last, and the length grows by one until the capacity is reached. */
  function PushSample(h: seq<real>, v: real): (r: seq<real>)
    ensures |r| == if |h| < HISTORY_CAPACITY then |h| + 1 else HISTORY_CAPACITY
    ensures r[|r| - 1] == v
  {
    if |h| < HISTORY_CAPACITY then h + [v]
    else h[|h| - (HISTORY_CAPACITY - 1)..] + [v]
  }

  /** The deque keeps the newest samples of the history followed by `v`,
      dropping only the oldest ones. */
  lemma PushSampleWindow(h: seq<real>, v: real)
    requires |h| <= HISTORY_CAPACITY
    ensures PushSample(h, v) == (h + [v])[|h| + 1 - |PushSample(h, v)|..]
  {
    if |h| == HISTORY_CAPACITY {
      assert (h + [v])[1..] == h[1..] + [v];
    }
  }

  /** The scroll issued after a sample has been appended: none until two
      samples exist, and none when the truncated amount between the last
      two samples is at most 1 in magnitude (noise). */
  function ScrollEvents(h: seq<real>, sensitivity: int): (evs: seq<Event>)
    ensures |evs| <= 1
    ensures |h| < 2 ==> evs == []
    ensures 2 <= |h| ==>
              (evs != [] <==> 1 < Abs(ScrollAmount(h[|h| - 2], h[|h| - 1], sensitivity)))
    ensures forall e | e in evs ::
              e == ScrollBy(ScrollAmount(h[|h| - 2], h[|h| - 1], sensitivity)) && 1 < Abs(e.amount)
  {
    if |h| < 2 then []
    else
      var amount := ScrollAmount(h[|h| - 2], h[|h| - 1], sensitivity);
      if 1 < Abs(amount) then [ScrollBy(amount)] else []
  }

  /** One frame of an edge-triggered click latch: a click fires exactly when
      the pinch is closed and the latch is clear, and the latch afterwards
      records whether the pinch is closed, so only an open pinch re-arms it. */
  function LatchStep(pinched: bool, latched: bool): (r: Latch)
    ensures r.fire <==> pinched && !latched
    ensures r.latched == pinched
  {
    if pinched && !latched then Latch(true, true)
    else if !pinched then Latch(false, false)
    else Latch(false, latched)
  }

  /** The mode label after a frame: Move overrides everything; otherwise a
      right click beats a left click, which beats scrolling; with none of
      these the label is left as it was. */
  function NextMode(previous: Mode, scrolling: bool, leftFired: bool, rightFired: bool, moving: bool): (m: Mode)
    ensures moving ==> m == Move
    ensures !moving && rightFired ==> m == RightClick
    ensures !moving && !rightFired && leftFired ==> m == LeftClick
    ensures !moving && !rightFired && !leftFired && scrolling ==> m == Scroll
    ensures !moving && !rightFired && !leftFired && !scrolling ==> m == previous
  {
    var afterScroll := if scrolling then Scroll else previous;
    var afterLeft := if leftFired then LeftClick else afterScroll;
    var afterRight := if rightFired then RightClick else afterLeft;
    if moving then Move else afterRight
  }

  // The gesture conditions of one frame.

  /** Index and middle fingers both raised. */
  predicate BothExtended(hand: HandData)
    requires HasControlLandmarks(hand)
    ensures IndexTip(hand).y == IndexPip(hand).y ==> !BothExtended(hand)
    ensures MiddleTip(hand).y == MiddlePip(hand).y ==> !BothExtended(hand)
  {
    Extended(IndexTip(hand), IndexPip(hand)) && Extended(MiddleTip(hand), MiddlePip(hand))
  }

  /** Thumb-index distance below the left-click threshold. */
  predicate LeftPinched(cfg: Config, hand: HandData)
    requires HasControlLandmarks(hand)
    ensures LeftPinched(cfg, hand) ==> 0.0 < cfg.leftPinchThreshold && !LeftPinchOpen(cfg, hand)
    ensures ThumbTip(hand).x == IndexTip(hand).x && ThumbTip(hand).y == IndexTip(hand).y ==>
              (LeftPinched(cfg, hand) <==> 0.0 < cfg.leftPinchThreshold)
  {
    DistanceBelowExcludesAbove(ThumbTip(hand).x, ThumbTip(hand).y, IndexTip(hand).x, IndexTip(hand).y,
                               cfg.leftPinchThreshold);
    DistanceBelow(ThumbTip(hand).x, ThumbTip(hand).y, IndexTip(hand).x, IndexTip(hand).y,
                  cfg.leftPinchThreshold)
  }

  /** Thumb-index distance strictly above the left-click threshold. */
  predicate LeftPinchOpen(cfg: Config, hand: HandData)
    requires HasControlLandmarks(hand)
    ensures cfg.leftPinchThreshold < 0.0 ==> LeftPinchOpen(cfg, hand)
    ensures ThumbTip(hand).x == IndexTip(hand).x && ThumbTip(hand).y == IndexTip(hand).y ==>
              (LeftPinchOpen(cfg, hand) <==> cfg.leftPinchThreshold < 0.0)
  {
    DistanceAbove(ThumbTip(hand).x, ThumbTip(hand).y, IndexTip(hand).x, IndexTip(hand).y,
                  cfg.leftPinchThreshold)
  }

  /** Thumb-middle distance below the right-click threshold. */
  predicate RightPinched(cfg: Config, hand: HandData)
    requires HasControlLandmarks(hand)
    ensures RightPinched(cfg, hand) ==> 0.0 < cfg.rightPinchThreshold
    ensures ThumbTip(hand).x == MiddleTip(hand).x && ThumbTip(hand).y == MiddleTip(hand).y ==>
              (RightPinched(cfg, hand) <==> 0.0 < cfg.rightPinchThreshold)
  {
    DistanceBelow(ThumbTip(hand).x, ThumbTip(hand).y, MiddleTip(hand).x, MiddleTip(hand).y,
                  cfg.rightPinchThreshold)
  }

  /** The scroll gate: both fingers raised and the thumb away from the index. */
  predicate ScrollGate(cfg: Config, hand: HandData)
    requires HasControlLandmarks(hand)
    ensures ScrollGate(cfg, hand) ==> BothExtended(hand) && !LeftPinched(cfg, hand)
  {
    BothExtended(hand) && LeftPinchOpen(cfg, hand)
  }

  /** The condition for the plain Move label. */
  predicate MoveGate(cfg: Config, hand: HandData)
    requires HasControlLandmarks(hand)
    ensures MoveGate(cfg, hand) ==> !ScrollGate(cfg, hand) && !LeftPinched(cfg, hand) && !RightPinched(cfg, hand)
  {
    !LeftPinched(cfg, hand) && !RightPinched(cfg, hand) && !BothExtended(hand)
  }

  /** What update reads off one hand before it acts: the fingertip
      coordinates it uses and the four gesture conditions. */
  datatype Reading = Reading(
    indexX: real,
    indexY: real,
    middleY: real,
    scrolling: bool,
    leftPinched: bool,
    rightPinched: bool,
    moving: bool)

  /** The reading of a hand. Scrolling needs the thumb away from the index
      finger, so it never coincides with a left pinch; Move needs the two
      fingers not both raised, so it never coincides with scrolling. */
  function Read(cfg: Config, hand: HandData): (r: Reading)
    requires HasControlLandmarks(hand)
    ensures r.scrolling ==> !r.leftPinched
    ensures r.moving ==> !r.scrolling && !r.leftPinched && !r.rightPinched
  {
    DistanceBelowExcludesAbove(ThumbTip(hand).x, ThumbTip(hand).y, IndexTip(hand).x, IndexTip(hand).y,
                               cfg.leftPinchThreshold);
    Reading(IndexTip(hand).x, IndexTip(hand).y, MiddleTip(hand).y,
            ScrollGate(cfg, hand), LeftPinched(cfg, hand), RightPinched(cfg, hand), MoveGate(cfg, hand))
  }

  /** A fresh controller: the cursor midway between the screen's edges on
      both axes, nothing remembered and the Idle label. */
  function InitialState(cfg: Config): (s: ControllerState)
    ensures s.prevCursor.x - 0.0 == cfg.screenWidth as real - s.prevCursor.x
    ensures s.prevCursor.y - 0.0 == cfg.screenHeight as real - s.prevCursor.y
    ensures s.scrollHistory == [] && !s.leftClickLatched && !s.rightClickLatched && s.currentMode == Idle
  {
    ControllerState(
      SmoothPoint(cfg.screenWidth as real / 2.0, cfg.screenHeight as real / 2.0),
      [], false, false, Idle)
  }

  /** What holds between frames: the history is within its capacity and,
      when the smoothing factor is a proper blend, the cursor is on screen. */
  predicate StateInvariant(cfg: Config, s: ControllerState)
  {
    |s.scrollHistory| <= HISTORY_CAPACITY &&
    (0.0 <= cfg.smoothingFactor <= 1.0 ==> OnScreen(cfg, s.prevCursor))
  }

  /** The scroll sample: mean height of the index and middle fingertips. */
  function ScrollSample(r: Reading): (v: real)
    ensures Min(r.indexY, r.middleY) <= v <= Max(r.indexY, r.middleY)
    ensures v - r.indexY == r.middleY - v
  {
    (r.indexY + r.middleY) / 2.0
  }

  /** The pointer actions of one frame, in the order update issues them:
      the move, then any scroll, then a left click, then a right click. */
  function FrameEvents(cursor: SmoothPoint, scrolls: seq<Event>, leftFired: bool, rightFired: bool): (r: seq<Event>)
    ensures |r| == 1 + |scrolls| + (if leftFired then 1 else 0) + (if rightFired then 1 else 0)
    ensures r[0] == MoveTo(cursor.x, cursor.y)
  {
    [MoveTo(cursor.x, cursor.y)] + scrolls
      + (if leftFired then [Click(Left)] else [])
      + (if rightFired then [Click(Right)] else [])
  }

  /** What update does with a reading: the new state and the pointer actions
      issued, in order (move, then scroll, then left click, then right
      click). */
  function Advance(cfg: Config, s: ControllerState, r: Reading): (res: StepResult)
    requires MappingDefined(cfg)
    ensures res.state.leftClickLatched == r.leftPinched && res.state.rightClickLatched == r.rightPinched
    ensures res.state.scrollHistory != [] <==> r.scrolling
    ensures |s.scrollHistory| <= HISTORY_CAPACITY ==> |res.state.scrollHistory| <= HISTORY_CAPACITY
    ensures 1 <= |res.events| && res.events[0] == MoveTo(res.state.prevCursor.x, res.state.prevCursor.y)
  {
    var cursor := SmoothCursor(s.prevCursor, MapTarget(cfg, r.indexX, r.indexY), cfg.smoothingFactor);
    var history := if r.scrolling then PushSample(s.scrollHistory, ScrollSample(r)) else [];
    var scrolls := if r.scrolling then ScrollEvents(history, cfg.scrollSensitivity) else [];
    var left := LatchStep(r.leftPinched, s.leftClickLatched);
    var right := LatchStep(r.rightPinched, s.rightClickLatched);
    var mode := NextMode(s.currentMode, r.scrolling, left.fire, right.fire, r.moving);
    StepResult(
      ControllerState(cursor, history, left.latched, right.latched, mode),
      FrameEvents(cursor, scrolls, left.fire, right.fire))
  }

  /** One call of update on a hand. */
  function Step(cfg: Config, s: ControllerState, hand: HandData): (res: StepResult)
    requires MappingDefined(cfg) && HasControlLandmarks(hand)
    ensures res.state.leftClickLatched == LeftPinched(cfg, hand)
    ensures res.state.rightClickLatched == RightPinched(cfg, hand)
    ensures res.state.scrollHistory != [] <==> ScrollGate(cfg, hand)
  {
    Advance(cfg, s, Read(cfg, hand))
  }

  lemma InitialStateValid(cfg: Config)
    ensures StateInvariant(cfg, InitialState(cfg))
    ensures InitialState(cfg).scrollHistory == []
  {
  }

  /** Update keeps the invariant: the history stays within its capacity and
      an on-screen cursor blended towards an on-screen target stays on
      screen. */
  lemma AdvancePreservesInvariant(cfg: Config, s: ControllerState, r: Reading)
    requires MappingDefined(cfg)
    requires StateInvariant(cfg, s)
    ensures StateInvariant(cfg, Advance(cfg, s, r).state)
  {
    var target := MapTarget(cfg, r.indexX, r.indexY);
    var cursor := SmoothCursor(s.prevCursor, target, cfg.smoothingFactor);
    assert Advance(cfg, s, r).state.prevCursor == cursor;
    if 0.0 <= cfg.smoothingFactor <= 1.0 {
      assert OnScreen(cfg, target);
      assert OnScreen(cfg, cursor);
    }
  }

  /** The controller object: its configuration is fixed at construction, its
      cursor, history, latches and label change with every update. */
  class MouseGestureController {
    const cameraWidth: int
    const cameraHeight: int
    const screenWidth: nat
    const screenHeight: nat
    const smoothingFactor: real
    const margin: int
    const leftPinchThreshold: real
    const rightPinchThreshold: real
    const scrollSensitivity: int

    var prevCursor: SmoothPoint
    var scrollHistory: seq<real>
    var leftClickLatched: bool
    var rightClickLatched: bool
    var currentMode: Mode

    function Configuration(): Config
    {
      Config(cameraWidth, cameraHeight, screenWidth, screenHeight, smoothingFactor, margin,
             leftPinchThreshold, rightPinchThreshold, scrollSensitivity)
    }

    function State(): ControllerState
      reads this
    {
      ControllerState(prevCursor, scrollHistory, leftClickLatched, rightClickLatched, currentMode)
    }

    ghost predicate Valid()
      reads this
    {
      StateInvariant(Configuration(), State())
    }

    /** The screen size is a parameter here; the original queries it. */
    constructor(
      cameraWidth: int,
      cameraHeight: int,
      screenWidth: nat,
      screenHeight: nat,
      smoothingFactor: real := DEFAULT_SMOOTHING_FACTOR,
      movementMargin: int := DEFAULT_MOVEMENT_MARGIN,
      pinchClickThreshold: real := DEFAULT_LEFT_PINCH_THRESHOLD,
      pinchRightClickThreshold: real := DEFAULT_RIGHT_PINCH_THRESHOLD,
      scrollSensitivity: int := DEFAULT_SCROLL_SENSITIVITY)
      ensures Configuration() == Config(cameraWidth, cameraHeight, screenWidth, screenHeight,
                                        smoothingFactor, movementMargin, pinchClickThreshold,
                                        pinchRightClickThreshold, scrollSensitivity)
      ensures State() == InitialState(Configuration())
      ensures Valid()
    {
      this.cameraWidth := cameraWidth;
      this.cameraHeight := cameraHeight;
      this.screenWidth := screenWidth;
      this.screenHeight := screenHeight;
      this.smoothingFactor := smoothingFactor;
      this.margin := movementMargin;
      this.leftPinchThreshold := pinchClickThreshold;
      this.rightPinchThreshold := pinchRightClickThreshold;
      this.scrollSensitivity := scrollSensitivity;
      prevCursor := SmoothPoint(screenWidth as real / 2.0, screenHeight as real / 2.0);
      scrollHistory := [];
      leftClickLatched := false;
      rightClickLatched := false;
      currentMode := Idle;
    }

    /** Maps the fingertip onto the screen, blends it into the cursor and
        issues the pointer move. */
    method MoveCursor(fingerX: real, fingerY: real) returns (move: Event)
      requires MappingDefined(Configuration())
      modifies this`prevCursor
      ensures prevCursor == SmoothCursor(old(prevCursor), MapTarget(Configuration(), fingerX, fingerY),
                                         smoothingFactor)
      ensures move == MoveTo(prevCursor.x, prevCursor.y)
    {
      var camX := fingerX * (cameraWidth as real);
      var camY := fingerY * (cameraHeight as real);

      var minX := margin as real;
      var maxX := (cameraWidth - margin) as real;
      var minY := margin as real;
      var maxY := (cameraHeight - margin) as real;

      camX := Clamp(camX, minX, maxX);
      camY := Clamp(camY, minY, maxY);

      var targetX := Rescale(camX, minX, maxX, screenWidth as real);
      var targetY := Rescale(camY, minY, maxY, screenHeight as real);

      var smoothX := Lerp(prevCursor.x, targetX, smoothingFactor);
      var smoothY := Lerp(prevCursor.y, targetY, smoothingFactor);

      prevCursor := SmoothPoint(smoothX, smoothY);
      move := MoveTo(smoothX, smoothY);
    }

    /** Appends the sample to the bounded history (evicting the oldest when
        full) and issues the scroll for the last height change, if any. */
    method HandleScroll(indexY: real, middleY: real) returns (scroll: seq<Event>)
      requires |scrollHistory| <= HISTORY_CAPACITY
      modifies this`scrollHistory
      ensures scrollHistory == PushSample(old(scrollHistory), (indexY + middleY) / 2.0)
      ensures scroll == ScrollEvents(scrollHistory, scrollSensitivity)
    {
      var avgY := (indexY + middleY) / 2.0;
      if |scrollHistory| == HISTORY_CAPACITY {
        scrollHistory := scrollHistory[1..];
      }
      scrollHistory := scrollHistory + [avgY];

      if |scrollHistory| < 2 {
        return [];
      }

      var amount := ScrollAmount(scrollHistory[|scrollHistory| - 2], scrollHistory[|scrollHistory| - 1],
                                 scrollSensitivity);

      if 1 < Abs(amount) {
        scroll := [ScrollBy(amount)];
      } else {
        scroll := [];
      }
    }

    /** The scroll branch of a frame: while the two-finger gesture holds, the
        sample is tracked and the mode is Scroll; otherwise the history is
        forgotten. */
    method ScrollGesture(scrolling: bool, indexY: real, middleY: real) returns (scroll: seq<Event>)
      requires |scrollHistory| <= HISTORY_CAPACITY
      modifies this`scrollHistory, this`currentMode
      ensures scrollHistory == if scrolling then PushSample(old(scrollHistory), (indexY + middleY) / 2.0) else []
      ensures scroll == if scrolling then ScrollEvents(scrollHistory, scrollSensitivity) else []
      ensures currentMode == if scrolling then Scroll else old(currentMode)
    {
      scroll := [];
      if scrolling {
        scroll := HandleScroll(indexY, middleY);
        currentMode := Scroll;
      } else {
        scrollHistory := [];
      }
    }

    /** The left-click latch: clicks on the frame the thumb-index pinch
        closes, and re-arms only on a frame where it is open. */
    method LeftClickLatch(pinched: bool) returns (click: seq<Event>)
      modifies this`leftClickLatched, this`currentMode
      ensures leftClickLatched == LatchStep(pinched, old(leftClickLatched)).latched
      ensures click == if LatchStep(pinched, old(leftClickLatched)).fire then [Click(Left)] else []
      ensures currentMode == if LatchStep(pinched, old(leftClickLatched)).fire then LeftClick else old(currentMode)
    {
      click := [];
      if pinched && !leftClickLatched {
        click := [Click(Left)];
        leftClickLatched := true;
        currentMode := LeftClick;
      } else if !pinched {
        leftClickLatched := false;
      }
    }

    /** The right-click latch, the same rule on the thumb-middle pinch. */
    method RightClickLatch(pinched: bool) returns (click: seq<Event>)
      modifies this`rightClickLatched, this`currentMode
      ensures rightClickLatched == LatchStep(pinched, old(rightClickLatched)).latched
      ensures click == if LatchStep(pinched, old(rightClickLatched)).fire then [Click(Right)] else []
      ensures currentMode == if LatchStep(pinched, old(rightClickLatched)).fire then RightClick else old(currentMode)
    {
      click := [];
      if pinched && !rightClickLatched {
        click := [Click(Right)];
        rightClickLatched := true;
        currentMode := RightClick;
      } else if !pinched {
        rightClickLatched := false;
      }
    }

    /** Acts on a reading: the body of update after the landmarks are read.
        Each field ends up as Advance describes. */
    method Apply(r: Reading) returns (events: seq<Event>)
      requires |scrollHistory| <= HISTORY_CAPACITY && MappingDefined(Configuration())
      modifies this
      ensures prevCursor == SmoothCursor(old(prevCursor), MapTarget(Configuration(), r.indexX, r.indexY),
                                         smoothingFactor)
      ensures scrollHistory == if r.scrolling then PushSample(old(scrollHistory), ScrollSample(r)) else []
      ensures leftClickLatched == LatchStep(r.leftPinched, old(leftClickLatched)).latched
      ensures rightClickLatched == LatchStep(r.rightPinched, old(rightClickLatched)).latched
      ensures currentMode == NextMode(old(currentMode), r.scrolling,
                                      LatchStep(r.leftPinched, old(leftClickLatched)).fire,
                                      LatchStep(r.rightPinched, old(rightClickLatched)).fire, r.moving)
      ensures events == FrameEvents(prevCursor,
                                    if r.scrolling then ScrollEvents(scrollHistory, scrollSensitivity) else [],
                                    LatchStep(r.leftPinched, old(leftClickLatched)).fire,
                                    LatchStep(r.rightPinched, old(rightClickLatched)).fire)
    {
      // The cursor moves on every frame, whatever the gesture.
      var move := MoveCursor(r.indexX, r.indexY);
      var scroll := ScrollGesture(r.scrolling, r.indexY, r.middleY);
      var leftClick := LeftClickLatch(r.leftPinched);
      var rightClick := RightClickLatch(r.rightPinched);
      if r.moving {
        currentMode := Move;
      }
      events := [move] + scroll + leftClick + rightClick;
    }

    /** One frame: reads the hand, then acts on it; returns the pointer
        actions issued, in order. */
    method Update(hand: HandData) returns (events: seq<Event>)
      requires Valid()
      requires MappingDefined(Configuration()) && HasControlLandmarks(hand)
      modifies this
      ensures Valid()
      ensures StepResult(State(), events) == Step(Configuration(), old(State()), hand)
    {
      ghost var before := State();
      var reading := Read(Configuration(), hand);
      events := Apply(reading);
      AdvancePreservesInvariant(Configuration(), before, reading);
    }
  }
}
