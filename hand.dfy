/** The shape of one detected hand as the tracker hands it to the controller
    (hand_tracker.py): normalized landmark points in the fixed MediaPipe
    Hands numbering. Detection itself is not modelled. */
module Hand {

  /** One joint, normalized to the camera frame; z (depth) is carried but
      never read by the controller. */
  datatype LandmarkPoint = LandmarkPoint(x: real, y: real, z: real)

  /** All landmarks of one hand; the tracker always delivers 21. */
  datatype HandData = HandData(landmarks: seq<LandmarkPoint>)

  const LANDMARK_COUNT: nat := 21

  // Landmark numbers read by the controller.
  const THUMB_TIP: nat := 4
  const INDEX_PIP: nat := 6
  const INDEX_TIP: nat := 8
  const MIDDLE_PIP: nat := 10
  const MIDDLE_TIP: nat := 12

  /** The controller reads landmarks up to the middle fingertip and no
      further; a shorter list would make its indexing fail. */
  predicate HasControlLandmarks(hand: HandData)
  {
    MIDDLE_TIP < |hand.landmarks|
  }

  /** A hand as the tracker delivers it: all 21 landmarks. */
  predicate FullHand(hand: HandData)
  {
    |hand.landmarks| == LANDMARK_COUNT
  }

  /** Every landmark the controller reads exists in a full hand. */
  lemma FullHandHasControlLandmarks(hand: HandData)
    requires FullHand(hand)
    ensures HasControlLandmarks(hand)
  {
  }

  function ThumbTip(hand: HandData): LandmarkPoint
    requires HasControlLandmarks(hand)
  {
    hand.landmarks[THUMB_TIP]
  }

  function IndexPip(hand: HandData): LandmarkPoint
    requires HasControlLandmarks(hand)
  {
    hand.landmarks[INDEX_PIP]
  }

  function IndexTip(hand: HandData): LandmarkPoint
    requires HasControlLandmarks(hand)
  {
    hand.landmarks[INDEX_TIP]
  }

  function MiddlePip(hand: HandData): LandmarkPoint
    requires HasControlLandmarks(hand)
  {
    hand.landmarks[MIDDLE_PIP]
  }

  function MiddleTip(hand: HandData): LandmarkPoint
    requires HasControlLandmarks(hand)
  {
    hand.landmarks[MIDDLE_TIP]
  }

  /** The extension heuristic: a finger counts as raised when its tip is
      higher in the image (smaller y) than its middle (PIP) joint. */
  predicate Extended(tip: LandmarkPoint, pip: LandmarkPoint)
    ensures tip.y == pip.y ==> !Extended(tip, pip)
  {
    tip.y < pip.y
  }
}
