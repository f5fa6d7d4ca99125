/**
 * The gesture classifier: an ordered chain of rules over the finger flags, the
 * thumb flag and a few landmark distances, where the first rule that holds
 * decides the label.
 */
module Gestures {
  import opened Wrappers
  import opened Landmarks
  import opened Vocabulary

  /** Both coordinates of thumb tip and index tip closer than this: the "ok" sign. */
  const OkThreshold: real := 3.0 / 100.0

  /** Both coordinates of thumb tip and index tip closer than this: part of the heart sign. */
  const HeartThreshold: real := 5.0 / 100.0

  function Abs(v: real): real
  {
    if v < 0.0 then -v else v
  }

  /** The two landmarks differ by strictly less than `eps` on each axis. */
  predicate Near(a: Landmark, b: Landmark, eps: real)
  {
    Abs(a.x - b.x) < eps && Abs(a.y - b.y) < eps
  }

  /** The sum of a list of flags. */
  function Sum(s: seq<int>): int
  {
    if s == [] then 0 else s[0] + Sum(s[1..])
  }

  /** A request to draw a segment between two landmarks, in the given colour (BGR) and thickness. */
  datatype LineRequest = LineRequest(from: Landmark, to: Landmark, color: (int, int, int), thickness: int)

  /**
   * What one classification produces: the label, if any rule matched, and the
   * segment the heart rule asks to have drawn.
   */
  datatype Detection = Detection(senia: Option<Label>, line: Option<LineRequest>)

  function Found(l: Label): Detection
  {
    Detection(Some(l), None)
  }

  /**
   * The heart pose: middle, ring and pinky tips strictly below their joints, thumb
   * tip and index tip within the heart threshold, thumb tip above joint 2 and index
   * tip above joint 6.
   */
  predicate HeartPose(hand: seq<Landmark>)
    requires |hand| >= HandSize
  {
    var fingersBent := hand[12].y > hand[10].y && hand[16].y > hand[14].y && hand[20].y > hand[18].y;
    var thumbIndexClose := Near(hand[4], hand[8], HeartThreshold);
    var thumbExtended := hand[4].y < hand[2].y;
    var indexExtended := hand[8].y < hand[6].y;
    fingersBent && thumbIndexClose && thumbExtended && indexExtended
  }

  /** The red line of thickness 2 from thumb tip to index tip that the heart rule requests. */
  function HeartLine(hand: seq<Landmark>): LineRequest
    requires |hand| >= HandSize
  {
    LineRequest(hand[4], hand[8], (0, 0, 255), 2)
  }

  /**
   * The rule chain, rule by rule in the order written, over the finger flags
   * `dedos` (index, middle, ring, pinky) and the thumb flag `pulgar`. Several
   * rules can never fire; they are kept so that their shadowing can be proved.
   */
  function Rules(hand: seq<Landmark>, dedos: seq<int>, pulgar: int): Detection
    requires |hand| >= HandSize && |dedos| == 4
  {
    if Sum(dedos) == 4 then Found(ManoAbierta)
    else if Sum(dedos) == 0 && pulgar != 0 then Found(PulgarArriba)
    else if dedos[0..2] == [1, 1] && Sum(dedos[2..]) == 0 then Found(SenaPaz)
    else if Near(hand[4], hand[8], OkThreshold) then Found(SenaOk)
    else if Sum(dedos) == 1 && dedos[0] == 1 then Found(Senalar)
    // numbers one to ten
    else if Sum(dedos) == 1 && dedos[0] == 1 then Found(Uno)
    else if Sum(dedos) == 2 && dedos[0..2] == [1, 1] then Found(Dos)
    else if Sum(dedos) == 3 && dedos[0..3] == [1, 1, 1] then Found(Tres)
    // conjuncts swapped (both sides are pure): a count of 4 has already returned above
    else if dedos[3] == 0 && Sum(dedos) == 4 then Found(Cuatro)
    else if Sum(dedos) == 5 then Found(Cinco)
    else if dedos[0] == 1 && dedos[1] == 0 && dedos[2] == 0 && dedos[3] == 1 && pulgar == 0 then Found(Seis)
    else if dedos[0] == 1 && dedos[1] == 1 && dedos[2] == 0 && dedos[3] == 1 && pulgar == 0 then Found(Siete)
    else if dedos[0] == 1 && dedos[1] == 1 && dedos[2] == 1 && dedos[3] == 1 && pulgar == 0 then Found(Ocho)
    else if dedos[0] == 0 && dedos[1] == 1 && dedos[2] == 1 && dedos[3] == 1 && pulgar == 0 then Found(Nueve)
    else if dedos[0] == 1 && dedos[1] == 0 && dedos[2] == 0 && dedos[3] == 0 && pulgar == 1 then Found(Diez)
    // the heart sign, which also asks for a line to be drawn
    else if HeartPose(hand) then Detection(Some(Corazon), Some(HeartLine(hand)))
    else Detection(None, None)
  }

  /** The classifier as a function of the hand alone. */
  function Classify(hand: seq<Landmark>): Detection
    requires |hand| >= HandSize
  {
    Rules(hand, Fingers(hand), Thumb(hand))
  }

  /** The classifier as the source runs it: the finger-state loop, the thumb flag, then the rules. */
  method Detect(hand: seq<Landmark>) returns (d: Detection)
    requires |hand| >= HandSize
    ensures d == Classify(hand)
  {
    var dedos := FingerStates(hand);
    var pulgar := if hand[4].x < hand[3].x then 1 else 0;
    d := Rules(hand, dedos, pulgar);
  }

  /**
   * The meaning shown for a hand: nothing when no label was returned, otherwise
   * the table entry for the label's key, with the placeholder as default.
   */
  function Caption(hand: seq<Landmark>): Option<string>
    requires |hand| >= HandSize
  {
    match Classify(hand).senia
    case None => None
    case Some(l) => Some(Describe(Key(l)))
  }
}
