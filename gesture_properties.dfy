/** What the gesture controller promises over one frame and over a run of
    frames: the cursor moves first and exactly once, clicks are edge
    triggered, the two click latches are independent, scrolling and a left
    click never share a frame, the history only lives while the scroll gate
    is open, and the state stays valid along any run. */
module GestureProperties {
  import opened Geometry
  import opened Hand
  import opened GestureController

  // ---------------------------------------------------------------------
  // One frame.
  // ---------------------------------------------------------------------

  /** What a frame's action list holds: the move first and nowhere else,
      a left or right click exactly when that button fired, and exactly the
      given scrolls. */
  lemma FrameEventsFacts(cursor: SmoothPoint, scrolls: seq<Event>, leftFired: bool, rightFired: bool)
    requires forall e :: e in scrolls ==> e.ScrollBy?
    ensures var evs := FrameEvents(cursor, scrolls, leftFired, rightFired);
            1 <= |evs| && evs[0] == MoveTo(cursor.x, cursor.y) &&
            (forall i :: 1 <= i < |evs| ==> !evs[i].MoveTo?) &&
            (Click(Left) in evs <==> leftFired) &&
            (Click(Right) in evs <==> rightFired) &&
            (forall e: Event :: e.ScrollBy? ==> (e in evs <==> e in scrolls))
  {
    var evs := FrameEvents(cursor, scrolls, leftFired, rightFired);
    var clicks := (if leftFired then [Click(Left)] else []) + (if rightFired then [Click(Right)] else []);
    var tail := scrolls + clicks;
    assert evs == [MoveTo(cursor.x, cursor.y)] + tail;
    forall i | 1 <= i < |evs|
      ensures !evs[i].MoveTo?
    {
      assert evs[i] == tail[i - 1];
      if i - 1 < |scrolls| {
        assert scrolls[i - 1] in scrolls;
      } else {
        assert tail[i - 1] == clicks[i - 1 - |scrolls|];
      }
    }
  }

  /** Every frame issues exactly one pointer move, before anything else, and
      it goes to the new smoothed cursor. This holds for every reading,
      whatever the gestures. */
  lemma MovesCursorFirstAndOnce(cfg: Config, s: ControllerState, r: Reading)
    requires MappingDefined(cfg)
    ensures var res := Advance(cfg, s, r);
            1 <= |res.events| &&
            res.events[0] == MoveTo(res.state.prevCursor.x, res.state.prevCursor.y) &&
            forall i :: 1 <= i < |res.events| ==> !res.events[i].MoveTo?
  {
    FrameFacts(cfg, s, r);
  }

  /** FrameEventsFacts applied to the frame Advance computes. */
  lemma FrameFacts(cfg: Config, s: ControllerState, r: Reading)
    requires MappingDefined(cfg)
    ensures var res := Advance(cfg, s, r);
            var h := res.state.scrollHistory;
            var scrolls := if r.scrolling then ScrollEvents(h, cfg.scrollSensitivity) else [];
            var left := LatchStep(r.leftPinched, s.leftClickLatched);
            var right := LatchStep(r.rightPinched, s.rightClickLatched);
            1 <= |res.events| &&
            res.events[0] == MoveTo(res.state.prevCursor.x, res.state.prevCursor.y) &&
            (forall i :: 1 <= i < |res.events| ==> !res.events[i].MoveTo?) &&
            (Click(Left) in res.events <==> left.fire) &&
            (Click(Right) in res.events <==> right.fire) &&
            (forall e: Event :: e.ScrollBy? ==> (e in res.events <==> e in scrolls))
  {
    var res := Advance(cfg, s, r);
    var h := res.state.scrollHistory;
    var scrolls := if r.scrolling then ScrollEvents(h, cfg.scrollSensitivity) else [];
    var left := LatchStep(r.leftPinched, s.leftClickLatched);
    var right := LatchStep(r.rightPinched, s.rightClickLatched);
    assert res.events == FrameEvents(res.state.prevCursor, scrolls, left.fire, right.fire);
    FrameEventsFacts(res.state.prevCursor, scrolls, left.fire, right.fire);
  }

  /** The cursor's distance to the frame's target shrinks by the factor
      1 - smoothingFactor in one frame (for a factor of at most 1). */
  lemma CursorApproachesTarget(cfg: Config, s: ControllerState, r: Reading, d: real)
    requires MappingDefined(cfg) && cfg.smoothingFactor <= 1.0
    requires var t := MapTarget(cfg, r.indexX, r.indexY);
             IsDistance(d, s.prevCursor.x, s.prevCursor.y, t.x, t.y)
    ensures var t := MapTarget(cfg, r.indexX, r.indexY);
            var c := Advance(cfg, s, r).state.prevCursor;
            IsDistance((1.0 - cfg.smoothingFactor) * d, c.x, c.y, t.x, t.y)
  {
    var t := MapTarget(cfg, r.indexX, r.indexY);
    var c := Advance(cfg, s, r).state.prevCursor;
    assert c == SmoothCursor(s.prevCursor, t, cfg.smoothingFactor);
    SmoothingShrinksDistance(s.prevCursor, t, cfg.smoothingFactor, d);
    assert IsDistance((1.0 - cfg.smoothingFactor) * d, c.x, c.y, t.x, t.y);
  }

  /** One smoothing step towards a target scales the distance to it by
      1 - factor. */
  lemma SmoothingShrinksDistance(prev: SmoothPoint, target: SmoothPoint, factor: real, d: real)
    requires factor <= 1.0
    requires IsDistance(d, prev.x, prev.y, target.x, target.y)
    ensures var c := SmoothCursor(prev, target, factor);
            IsDistance((1.0 - factor) * d, c.x, c.y, target.x, target.y)
  {
    var c := SmoothCursor(prev, target, factor);
    DistanceScaled(d, 1.0 - factor, prev.x, prev.y, target.x, target.y, c.x, c.y);
  }

  /** The left click in terms of the thumb-index distance d: a frame clicks
      exactly when d is below the threshold and the latch was clear, and the
      latch afterwards is set exactly when d is below the threshold, so only
      a frame with d at or above the threshold re-arms it. */
  lemma LeftClickEdge(cfg: Config, s: ControllerState, hand: HandData, d: real)
    requires MappingDefined(cfg) && HasControlLandmarks(hand)
    requires IsDistance(d, ThumbTip(hand).x, ThumbTip(hand).y, IndexTip(hand).x, IndexTip(hand).y)
    ensures var res := Step(cfg, s, hand);
            (Click(Left) in res.events <==> d < cfg.leftPinchThreshold && !s.leftClickLatched) &&
            (res.state.leftClickLatched <==> d < cfg.leftPinchThreshold)
  {
    var r := Read(cfg, hand);
    DistanceBelowIff(d, ThumbTip(hand).x, ThumbTip(hand).y, IndexTip(hand).x, IndexTip(hand).y,
                     cfg.leftPinchThreshold);
    assert r.leftPinched <==> d < cfg.leftPinchThreshold;
    ClickRule(cfg, s, r);
  }

  /** The right click in terms of the thumb-middle distance d, as for the
      left click. */
  lemma RightClickEdge(cfg: Config, s: ControllerState, hand: HandData, d: real)
    requires MappingDefined(cfg) && HasControlLandmarks(hand)
    requires IsDistance(d, ThumbTip(hand).x, ThumbTip(hand).y, MiddleTip(hand).x, MiddleTip(hand).y)
    ensures var res := Step(cfg, s, hand);
            (Click(Right) in res.events <==> d < cfg.rightPinchThreshold && !s.rightClickLatched) &&
            (res.state.rightClickLatched <==> d < cfg.rightPinchThreshold)
  {
    var r := Read(cfg, hand);
    DistanceBelowIff(d, ThumbTip(hand).x, ThumbTip(hand).y, MiddleTip(hand).x, MiddleTip(hand).y,
                     cfg.rightPinchThreshold);
    assert r.rightPinched <==> d < cfg.rightPinchThreshold;
    ClickRule(cfg, s, r);
  }

  /** Which clicks a reading issues, and the latches it leaves. */
  lemma ClickRule(cfg: Config, s: ControllerState, r: Reading)
    requires MappingDefined(cfg)
    ensures var res := Advance(cfg, s, r);
            (Click(Left) in res.events <==> r.leftPinched && !s.leftClickLatched) &&
            (Click(Right) in res.events <==> r.rightPinched && !s.rightClickLatched) &&
            res.state.leftClickLatched == r.leftPinched &&
            res.state.rightClickLatched == r.rightPinched
  {
    FrameFacts(cfg, s, r);
  }

  /** The two latches do not see each other: the left pinch and the left
      latch never change what happens to the right latch or whether a right
      click is issued, and the other way round. */
  lemma LatchesIndependent(cfg: Config, s: ControllerState, r: Reading, pinched: bool, latched: bool)
    requires MappingDefined(cfg)
    ensures var a := Advance(cfg, s, r);
            var b := Advance(cfg, s.(leftClickLatched := latched), r.(leftPinched := pinched));
            a.state.rightClickLatched == b.state.rightClickLatched &&
            (Click(Right) in a.events <==> Click(Right) in b.events)
    ensures var a := Advance(cfg, s, r);
            var b := Advance(cfg, s.(rightClickLatched := latched), r.(rightPinched := pinched));
            a.state.leftClickLatched == b.state.leftClickLatched &&
            (Click(Left) in a.events <==> Click(Left) in b.events)
  {
    ClickRule(cfg, s, r);
    ClickRule(cfg, s.(leftClickLatched := latched), r.(leftPinched := pinched));
    ClickRule(cfg, s.(rightClickLatched := latched), r.(rightPinched := pinched));
  }

  /** A frame that scrolls, or whose scroll gate is open, never left-clicks:
      the gate needs the thumb-index distance above the threshold and the
      click needs it below. */
  lemma ScrollExcludesLeftClick(cfg: Config, s: ControllerState, hand: HandData)
    requires MappingDefined(cfg) && HasControlLandmarks(hand)
    ensures var res := Step(cfg, s, hand);
            (ScrollGate(cfg, hand) ==> Click(Left) !in res.events) &&
            (forall e :: e in res.events && e.ScrollBy? ==> Click(Left) !in res.events)
  {
    var r := Read(cfg, hand);
    ClickRule(cfg, s, r);
    ScrollEventRule(cfg, s, r);
  }

  /** The scrolls a frame issues: with the gate closed none; with it open
      exactly those the two newest samples of the updated history call for. */
  lemma ScrollEventRule(cfg: Config, s: ControllerState, r: Reading)
    requires MappingDefined(cfg)
    ensures var res := Advance(cfg, s, r);
            forall e: Event :: e.ScrollBy? ==>
              (e in res.events <==>
                 r.scrolling && e in ScrollEvents(res.state.scrollHistory, cfg.scrollSensitivity))
  {
    FrameFacts(cfg, s, r);
  }

  /** The scroll history after a frame. With the gate closed it is emptied.
      With the gate open the frame's sample is appended, whether or not a
      scroll follows, and the oldest sample drops out once five are kept. */
  lemma ScrollHistoryRule(cfg: Config, s: ControllerState, r: Reading)
    requires MappingDefined(cfg)
    ensures !r.scrolling ==> Advance(cfg, s, r).state.scrollHistory == []
    ensures var h := Advance(cfg, s, r).state.scrollHistory;
            r.scrolling ==>
              |h| == (if |s.scrollHistory| < HISTORY_CAPACITY then |s.scrollHistory| + 1 else HISTORY_CAPACITY) &&
              h[|h| - 1] == ScrollSample(r)
    ensures var h := Advance(cfg, s, r).state.scrollHistory;
            r.scrolling && |s.scrollHistory| <= HISTORY_CAPACITY ==>
              h == (s.scrollHistory + [ScrollSample(r)])[|s.scrollHistory| + 1 - |h|..]
  {
    if r.scrolling && |s.scrollHistory| <= HISTORY_CAPACITY {
      PushSampleWindow(s.scrollHistory, ScrollSample(r));
    }
  }

  /** The direction of a scroll: with a positive sensitivity, a scroll up
      (positive amount) means the fingers rose in the image (smaller y) and
      a scroll down means they fell. */
  lemma ScrollDirection(h: seq<real>, sensitivity: int, n: int)
    requires 0 < sensitivity && ScrollBy(n) in ScrollEvents(h, sensitivity)
    ensures 2 <= |h|
    ensures 0 < n <==> h[|h| - 1] < h[|h| - 2]
    ensures n < 0 <==> h[|h| - 2] < h[|h| - 1]
  {
    assert 1 < Abs(n);
  }

  /** The label after a frame. Move wins when neither pinch is closed and
      the two fingers are not both raised; otherwise a right click, then a
      left click, then scrolling set it, and with none of these it is kept.
      Scroll and Move are never both called for. */
  lemma ModeRule(cfg: Config, s: ControllerState, hand: HandData)
    requires MappingDefined(cfg) && HasControlLandmarks(hand)
    ensures !(ScrollGate(cfg, hand) && MoveGate(cfg, hand))
    ensures var m := Step(cfg, s, hand).state.currentMode;
            var leftClick := LeftPinched(cfg, hand) && !s.leftClickLatched;
            var rightClick := RightPinched(cfg, hand) && !s.rightClickLatched;
            m == (if MoveGate(cfg, hand) then Move
                  else if rightClick then RightClick
                  else if leftClick then LeftClick
                  else if ScrollGate(cfg, hand) then Scroll
                  else s.currentMode)
  {
    var r := Read(cfg, hand);
    assert r.moving ==> !r.scrolling;
  }

  /** The two gates in terms of the pinch distances the original compares:
      dl between thumb and index, dr between thumb and middle finger. */
  lemma GatesByDistance(cfg: Config, hand: HandData, dl: real, dr: real)
    requires HasControlLandmarks(hand)
    requires IsDistance(dl, ThumbTip(hand).x, ThumbTip(hand).y, IndexTip(hand).x, IndexTip(hand).y)
    requires IsDistance(dr, ThumbTip(hand).x, ThumbTip(hand).y, MiddleTip(hand).x, MiddleTip(hand).y)
    ensures ScrollGate(cfg, hand) <==>
              IndexTip(hand).y < IndexPip(hand).y && MiddleTip(hand).y < MiddlePip(hand).y &&
              dl > cfg.leftPinchThreshold
    ensures MoveGate(cfg, hand) <==>
              dl >= cfg.leftPinchThreshold && dr >= cfg.rightPinchThreshold &&
              !(IndexTip(hand).y < IndexPip(hand).y && MiddleTip(hand).y < MiddlePip(hand).y)
  {
    DistanceBelowIff(dl, ThumbTip(hand).x, ThumbTip(hand).y, IndexTip(hand).x, IndexTip(hand).y,
                     cfg.leftPinchThreshold);
    DistanceAboveIff(dl, ThumbTip(hand).x, ThumbTip(hand).y, IndexTip(hand).x, IndexTip(hand).y,
                     cfg.leftPinchThreshold);
    DistanceBelowIff(dr, ThumbTip(hand).x, ThumbTip(hand).y, MiddleTip(hand).x, MiddleTip(hand).y,
                     cfg.rightPinchThreshold);
  }

  // ---------------------------------------------------------------------
  // Runs of frames.
  // ---------------------------------------------------------------------

  /** The state after a run of frames and the events of each frame. */
  datatype Trace = Trace(state: ControllerState, frames: seq<seq<Event>>)

  predicate AllTracked(hands: seq<HandData>)
  {
    forall i :: 0 <= i < |hands| ==> HasControlLandmarks(hands[i])
  }

  /** Calling update on each hand in turn. */
  function Run(cfg: Config, s: ControllerState, hands: seq<HandData>): (t: Trace)
    requires MappingDefined(cfg) && AllTracked(hands)
    ensures |t.frames| == |hands|
    decreases |hands|
  {
    if hands == [] then Trace(s, [])
    else
      var first := Step(cfg, s, hands[0]);
      var rest := Run(cfg, first.state, hands[1..]);
      Trace(rest.state, [first.events] + rest.frames)
  }

  /** Every run keeps the invariant. */
  lemma {:induction false} RunPreservesInvariant(cfg: Config, s: ControllerState, hands: seq<HandData>)
    requires MappingDefined(cfg) && AllTracked(hands)
    requires StateInvariant(cfg, s)
    ensures StateInvariant(cfg, Run(cfg, s, hands).state)
    decreases |hands|
  {
    if hands != [] {
      AdvancePreservesInvariant(cfg, s, Read(cfg, hands[0]));
      RunPreservesInvariant(cfg, Step(cfg, s, hands[0]).state, hands[1..]);
    }
  }

  /** From a fresh controller, with a smoothing factor in [0, 1], the cursor
      is on screen and the history within its capacity after any run. */
  lemma ReachableStatesOnScreen(cfg: Config, hands: seq<HandData>)
    requires MappingDefined(cfg) && AllTracked(hands)
    requires 0.0 <= cfg.smoothingFactor <= 1.0
    ensures var s := Run(cfg, InitialState(cfg), hands).state;
            OnScreen(cfg, s.prevCursor) && |s.scrollHistory| <= HISTORY_CAPACITY
  {
    InitialStateValid(cfg);
    RunPreservesInvariant(cfg, InitialState(cfg), hands);
  }

  /** The clicks of one latch over a sequence of pinch readings. */
  function ClickTrace(pinched: seq<bool>, latched: bool): (clicks: seq<bool>)
    ensures |clicks| == |pinched|
  {
    if pinched == [] then []
    else
      var l := LatchStep(pinched[0], latched);
      [l.fire] + ClickTrace(pinched[1..], l.latched)
  }

  /** Frame i of a pinch sequence is a rising edge: the pinch is closed and
      was open the frame before (before the first frame, the latch stands in
      for the previous pinch). */
  predicate RisingEdge(pinched: seq<bool>, latched: bool, i: nat)
    requires i < |pinched|
  {
    pinched[i] && !(if i == 0 then latched else pinched[i - 1])
  }

  /** Dropping the first frame, whose pinch then stands in for the latch,
      keeps every later rising edge where it was. */
  lemma RisingEdgeShift(pinched: seq<bool>, latched: bool, i: nat)
    requires 0 < i < |pinched|
    ensures RisingEdge(pinched[1..], pinched[0], i - 1) == RisingEdge(pinched, latched, i)
  {
    assert pinched[1..][i - 1] == pinched[i];
    if 1 < i {
      assert pinched[1..][i - 2] == pinched[i - 1];
    }
  }

  /** A latch clicks exactly on the rising edges of the pinch: on a frame
      whose pinch is closed while the previous frame's was open (for the
      first frame, while the latch was clear). Holding a pinch clicks once. */
  lemma {:induction false} ClickTraceRisingEdges(pinched: seq<bool>, latched: bool)
    ensures forall i :: 0 <= i < |pinched| ==>
              (ClickTrace(pinched, latched)[i] <==> RisingEdge(pinched, latched, i))
    decreases |pinched|
  {
    if pinched != [] {
      var rest := pinched[1..];
      var clicks := ClickTrace(pinched, latched);
      ClickTraceRisingEdges(rest, pinched[0]);
      assert clicks == [pinched[0] && !latched] + ClickTrace(rest, pinched[0]);
      forall i | 0 <= i < |pinched|
        ensures clicks[i] <==> RisingEdge(pinched, latched, i)
      {
        if 0 < i {
          assert clicks[i] == ClickTrace(rest, pinched[0])[i - 1];
          RisingEdgeShift(pinched, latched, i);
        }
      }
    }
  }

  /** Whether the pinch of button b is closed on a hand. */
  predicate Pinched(cfg: Config, hand: HandData, b: Button)
    requires HasControlLandmarks(hand)
  {
    if b == Left then LeftPinched(cfg, hand) else RightPinched(cfg, hand)
  }

  function Latched(s: ControllerState, b: Button): bool
  {
    if b == Left then s.leftClickLatched else s.rightClickLatched
  }

  /** One frame of either button: it clicks exactly when its latch fires,
      and its latch afterwards records its pinch. */
  lemma ButtonRule(cfg: Config, s: ControllerState, hand: HandData, b: Button)
    requires MappingDefined(cfg) && HasControlLandmarks(hand)
    ensures var res := Step(cfg, s, hand);
            (Click(b) in res.events <==> LatchStep(Pinched(cfg, hand, b), Latched(s, b)).fire) &&
            Latched(res.state, b) == Pinched(cfg, hand, b)
  {
    ClickRule(cfg, s, Read(cfg, hand));
  }

  /** Whether the pinch of button b is closed in each frame. */
  function Pinches(cfg: Config, hands: seq<HandData>, b: Button): (p: seq<bool>)
    requires AllTracked(hands)
    ensures |p| == |hands|
    ensures forall i :: 0 <= i < |hands| ==> p[i] == Pinched(cfg, hands[i], b)
    decreases |hands|
  {
    if hands == [] then [] else [Pinched(cfg, hands[0], b)] + Pinches(cfg, hands[1..], b)
  }

  /** Over a whole run, each button clicks exactly on the rising edges of
      its pinch: the frames whose pinch is closed while the previous frame's
      was open (for the first frame, while its latch was clear). */
  lemma {:induction false} RunClicksOnRisingEdges(cfg: Config, s: ControllerState, hands: seq<HandData>, b: Button)
    requires MappingDefined(cfg) && AllTracked(hands)
    ensures var t := Run(cfg, s, hands);
            forall i :: 0 <= i < |hands| ==>
              (Click(b) in t.frames[i] <==> RisingEdge(Pinches(cfg, hands, b), Latched(s, b), i))
    decreases |hands|
  {
    if hands != [] {
      var first := Step(cfg, s, hands[0]);
      var rest := hands[1..];
      var p := Pinches(cfg, hands, b);
      var t := Run(cfg, s, hands);
      var tr := Run(cfg, first.state, rest);
      RunClicksOnRisingEdges(cfg, first.state, rest, b);
      ButtonRule(cfg, s, hands[0], b);
      assert p[1..] == Pinches(cfg, rest, b);
      assert t.frames == [first.events] + tr.frames;
      forall i | 0 <= i < |hands|
        ensures Click(b) in t.frames[i] <==> RisingEdge(p, Latched(s, b), i)
      {
        if 0 < i {
          assert t.frames[i] == tr.frames[i - 1];
          RisingEdgeShift(p, Latched(s, b), i);
        }
      }
    }
  }

  // ---------------------------------------------------------------------
  // Worked examples with the default settings.
  // ---------------------------------------------------------------------

  /** Pinch readings for thumb-index distances against a threshold. */
  function Below(ds: seq<real>, threshold: real): (p: seq<bool>)
    ensures |p| == |ds|
    ensures forall i :: 0 <= i < |ds| ==> (p[i] <==> ds[i] < threshold)
  {
    if ds == [] then [] else [ds[0] < threshold] + Below(ds[1..], threshold)
  }

  /** Distances 0.05, 0.02, 0.02, 0.02, 0.05, 0.02 against the default
      threshold 0.035: a click on the second frame, none while the pinch is
      held, and another after it has been released. */
  lemma ClickTraceExample()
    ensures ClickTrace(Below([0.05, 0.02, 0.02, 0.02, 0.05, 0.02], DEFAULT_LEFT_PINCH_THRESHOLD), false)
            == [false, true, false, false, false, true]
  {
    var p := Below([0.05, 0.02, 0.02, 0.02, 0.05, 0.02], DEFAULT_LEFT_PINCH_THRESHOLD);
    assert p == [false, true, true, true, false, true];
    ClickTraceRisingEdges(p, false);
  }

  /** With the default sensitivity 30, fingers rising by a quarter of the
      frame height scroll up by 750; falling by the same scrolls down by
      750; a rise of 2^-8 (11.71875 before truncation) scrolls by 11; a
      smaller one of 2^-12 (0.732421875) is ignored as noise. Every sample
      is exact in binary floating point, so the original computes the same
      amounts. */
  lemma ScrollExamples()
    ensures ScrollEvents([0.5, 0.25], DEFAULT_SCROLL_SENSITIVITY) == [ScrollBy(750)]
    ensures ScrollEvents([0.25, 0.5], DEFAULT_SCROLL_SENSITIVITY) == [ScrollBy(-750)]
    ensures ScrollEvents([0.75, 0.5, 0.49609375], DEFAULT_SCROLL_SENSITIVITY) == [ScrollBy(11)]
    ensures ScrollEvents([0.5, 0.499755859375], DEFAULT_SCROLL_SENSITIVITY) == []
  {
    assert ScrollAmount(0.5, 0.25, 30) == 750;
    assert ScrollAmount(0.25, 0.5, 30) == -750;
    assert ScrollAmount(0.5, 0.49609375, 30) == 11;
    assert ScrollAmount(0.5, 0.499755859375, 30) == 0;
  }
}
