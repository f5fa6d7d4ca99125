/**
 * What the rule chain actually computes. Most of its rules are shadowed by
 * earlier ones or can never hold, and only nine labels are ever produced;
 * `Decision` is the resulting table, written without the dead rules.
 */
module GestureProperties {
  import opened Wrappers
  import opened Landmarks
  import opened Vocabulary
  import opened Gestures

  /** A list whose every element is a flag, 0 or 1. */
  predicate IsFlags(s: seq<int>)
  {
    forall k :: 0 <= k < |s| ==> s[k] == 0 || s[k] == 1
  }

  /**
   * The sum of a list of flags counts its ones: it lies between 0 and the length,
   * reaches the length exactly when every flag is 1, and is 0 exactly when every flag is 0.
   */
  lemma {:induction false} SumOfFlags(s: seq<int>)
    requires IsFlags(s)
    ensures 0 <= Sum(s) <= |s|
    ensures Sum(s) == |s| <==> forall k :: 0 <= k < |s| ==> s[k] == 1
    ensures Sum(s) == 0 <==> forall k :: 0 <= k < |s| ==> s[k] == 0
  {
    if s != [] {
      var t := s[1..];
      assert forall k :: 0 <= k < |t| ==> t[k] == s[k + 1];
      SumOfFlags(t);
      if Sum(s) == |s| {
        assert s[0] == 1;
      }
      if Sum(s) == 0 {
        assert s[0] == 0;
      }
    }
  }

  /** The sums the rules take of four flags, written out element by element. */
  lemma SumOfFour(d: seq<int>)
    requires |d| == 4
    ensures Sum(d) == d[0] + d[1] + d[2] + d[3]
    ensures Sum(d[2..]) == d[2] + d[3]
  {
    assert d[3..][1..] == [];
    assert Sum(d[3..]) == d[3];
    assert d[2..][1..] == d[3..];
    assert Sum(d[2..]) == d[2] + d[3];
    assert d[1..][1..] == d[2..];
    assert Sum(d[1..]) == d[1] + d[2] + d[3];
  }

  /**
   * The labels the rule chain can produce, as a decision table over which fingers
   * are extended, whether the thumb is, and whether thumb tip and index tip are
   * within the "ok" threshold.
   */
  function Decision(index: bool, middle: bool, ring: bool, pinky: bool, thumb: bool, ok: bool): Option<Label>
  {
    if index && middle && ring && pinky then Some(ManoAbierta)
    else if !index && !middle && !ring && !pinky && thumb then Some(PulgarArriba)
    else if index && middle && !ring && !pinky then Some(SenaPaz)
    else if ok then Some(SenaOk)
    else if index && !middle && !ring && !pinky then Some(Senalar)
    else if index && middle && ring && !pinky then Some(Tres)
    else if index && !middle && !ring && pinky && !thumb then Some(Seis)
    else if index && middle && !ring && pinky && !thumb then Some(Siete)
    else if !index && middle && ring && pinky && !thumb then Some(Nueve)
    else None
  }

  /** `Decision` applied to the raw geometry of a hand. */
  function Decided(hand: seq<Landmark>): Option<Label>
    requires |hand| >= HandSize
  {
    Decision(hand[8].y < hand[6].y, hand[12].y < hand[10].y, hand[16].y < hand[14].y,
             hand[20].y < hand[18].y, hand[4].x < hand[3].x, Near(hand[4], hand[8], OkThreshold))
  }

  /**
   * The rule chain computes the decision table, and the heart rule, the only one
   * that asks for a line to be drawn, never fires.
   */
  lemma ClassifyMatchesDecision(hand: seq<Landmark>)
    requires |hand| >= HandSize
    ensures Classify(hand) == Detection(Decided(hand), None)
  {
    FingerStateMeaning(hand);
    var d := Fingers(hand);
    SumOfFour(d);
    assert d[0..2] == [d[0], d[1]];
    assert d[0..3] == [d[0], d[1], d[2]];
  }

  /** All four fingers extended: the open hand, whatever the thumb and the thumb–index distance. */
  lemma OpenHandWins(hand: seq<Landmark>)
    requires |hand| >= HandSize
    requires hand[8].y < hand[6].y && hand[12].y < hand[10].y
    requires hand[16].y < hand[14].y && hand[20].y < hand[18].y
    ensures Classify(hand).senia == Some(ManoAbierta)
  {
    ClassifyMatchesDecision(hand);
  }

  /**
   * First match wins: thumb tip and index tip within the "ok" threshold gives the
   * "ok" sign whenever the open-hand, thumbs-up and peace rules do not hold,
   * whatever the other fingers do.
   */
  lemma OkSignWins(hand: seq<Landmark>)
    requires |hand| >= HandSize
    requires Near(hand[4], hand[8], OkThreshold)
    requires Sum(Fingers(hand)) != 4
    requires !(Sum(Fingers(hand)) == 0 && Thumb(hand) != 0)
    requires !(Fingers(hand)[0..2] == [1, 1] && Sum(Fingers(hand)[2..]) == 0)
    ensures Classify(hand).senia == Some(SenaOk)
  {
  }

  /** The finger count lies between 0 and 4, so the count-of-five rule never holds. */
  lemma FingerCountBounded(hand: seq<Landmark>)
    requires |hand| >= HandSize
    ensures 0 <= Sum(Fingers(hand)) <= 4
    ensures Sum(Fingers(hand)) == 4 <==> Fingers(hand) == [1, 1, 1, 1]
  {
    var d := Fingers(hand);
    FingerStateMeaning(hand);
    SumOfFlags(d);
    if Sum(d) == 4 {
      assert d == [1, 1, 1, 1];
    }
  }

  /**
   * The labels shadowed by an earlier rule or never satisfiable: "cuatro", "cinco"
   * and "ocho" need a count the open-hand rule already took or that cannot occur,
   * "uno" and "diez" imply the pointing rule, "dos" implies the peace rule, and
   * "corazón" implies the pointing or the "ok" rule.
   */
  lemma DeadLabels(hand: seq<Landmark>)
    requires |hand| >= HandSize
    ensures Classify(hand).senia !in
              {Some(Uno), Some(Dos), Some(Cuatro), Some(Cinco), Some(Ocho), Some(Diez), Some(Corazon)}
  {
    ClassifyMatchesDecision(hand);
  }

  /**
   * The heart pose forces the flags [1,0,0,0], so the hand is classified as the
   * "ok" sign or as pointing, and the heart's line is never requested.
   */
  lemma HeartIsShadowed(hand: seq<Landmark>)
    requires |hand| >= HandSize
    requires HeartPose(hand)
    ensures Fingers(hand) == [1, 0, 0, 0]
    ensures Classify(hand) ==
              Found(if Near(hand[4], hand[8], OkThreshold) then SenaOk else Senalar)
  {
    FingerStateMeaning(hand);
    ClassifyMatchesDecision(hand);
    var d := Fingers(hand);
    assert d == [1, 0, 0, 0];
  }

  /** The nine labels the classifier produces. */
  predicate Produced(l: Label)
  {
    l in {ManoAbierta, PulgarArriba, SenaPaz, SenaOk, Senalar, Tres, Seis, Siete, Nueve}
  }

  /**
   * Every result is either no label or one of the nine, a key of the table with
   * a meaning of its own; the letters and phrases are never produced.
   */
  lemma ResultRange(hand: seq<Landmark>)
    requires |hand| >= HandSize
    ensures Classify(hand).senia.Some? ==> Produced(Classify(hand).senia.value)
    ensures Classify(hand).senia.Some? ==>
              Key(Classify(hand).senia.value) in SeniasLse &&
              Describe(Key(Classify(hand).senia.value)) != Unknown
    ensures Classify(hand).line.None?
  {
    ClassifyMatchesDecision(hand);
  }

  /** The meaning shown is never the placeholder: every produced label is in the table. */
  lemma CaptionIsKnown(hand: seq<Landmark>)
    requires |hand| >= HandSize
    ensures Caption(hand).Some? <==> Classify(hand).senia.Some?
    ensures Caption(hand) != Some(Unknown)
  {
  }

  /** Thumbs-up (no finger extended, thumb extended) is shown as "Bien". */
  lemma ThumbsUpMeansBien(hand: seq<Landmark>)
    requires |hand| >= HandSize
    requires hand[8].y >= hand[6].y && hand[12].y >= hand[10].y
    requires hand[16].y >= hand[14].y && hand[20].y >= hand[18].y
    requires hand[4].x < hand[3].x
    ensures Classify(hand).senia == Some(PulgarArriba)
    ensures Caption(hand) == Some("Bien")
  {
    ClassifyMatchesDecision(hand);
  }

  /** Index and middle extended, ring and pinky bent: the peace sign, shown as "Paz". */
  lemma PeaceMeansPaz(hand: seq<Landmark>)
    requires |hand| >= HandSize
    requires hand[8].y < hand[6].y && hand[12].y < hand[10].y
    requires hand[16].y >= hand[14].y && hand[20].y >= hand[18].y
    ensures Classify(hand).senia == Some(SenaPaz)
    ensures Caption(hand) == Some("Paz")
  {
    ClassifyMatchesDecision(hand);
  }

  /** A synthetic hand with the given finger states and thumb–index closeness. */
  function Pose(index: bool, middle: bool, ring: bool, pinky: bool, thumb: bool, ok: bool): (hand: seq<Landmark>)
    ensures |hand| == HandSize
    ensures Decided(hand) == Decision(index, middle, ring, pinky, thumb, ok)
  {
    var up, down, mid := 2.0 / 5.0, 3.0 / 5.0, 1.0 / 2.0;
    var tipY := (b: bool) => if b then up else down;
    var thumbX := if thumb then up else down;
    var gap := if ok then 0.0 else 1.0 / 5.0;
    seq(HandSize, k =>
      if k == 4 then Landmark(thumbX, tipY(index) + gap)
      else if k == 8 then Landmark(thumbX, tipY(index))
      else if k == 12 then Landmark(mid, tipY(middle))
      else if k == 16 then Landmark(mid, tipY(ring))
      else if k == 20 then Landmark(mid, tipY(pinky))
      else Landmark(mid, mid))
  }

  /** A synthetic hand is classified by the decision table. */
  lemma PoseClassified(index: bool, middle: bool, ring: bool, pinky: bool, thumb: bool, ok: bool)
    ensures Classify(Pose(index, middle, ring, pinky, thumb, ok)).senia
            == Decision(index, middle, ring, pinky, thumb, ok)
  {
    ClassifyMatchesDecision(Pose(index, middle, ring, pinky, thumb, ok));
  }

  /** The decision table's argument row that yields a produced label. */
  function Witness(l: Label): (row: (bool, bool, bool, bool, bool, bool))
    requires Produced(l)
    ensures Decision(row.0, row.1, row.2, row.3, row.4, row.5) == Some(l)
  {
    match l
    case ManoAbierta => (true, true, true, true, false, false)
    case PulgarArriba => (false, false, false, false, true, false)
    case SenaPaz => (true, true, false, false, false, false)
    case SenaOk => (false, false, false, true, false, true)
    case Senalar => (true, false, false, false, false, false)
    case Tres => (true, true, true, false, false, false)
    case Seis => (true, false, false, true, false, false)
    case Siete => (true, true, false, true, false, false)
    case Nueve => (false, true, true, true, false, false)
  }

  /** Each of the nine labels is produced for some hand. */
  lemma ProducedIsReachable(l: Label)
    requires Produced(l)
    ensures exists hand :: |hand| >= HandSize && Classify(hand).senia == Some(l)
  {
    var row := Witness(l);
    PoseClassified(row.0, row.1, row.2, row.3, row.4, row.5);
    var hand := Pose(row.0, row.1, row.2, row.3, row.4, row.5);
    assert |hand| >= HandSize && Classify(hand).senia == Some(l);
  }

  /** Some hand is given no label at all. */
  lemma NoLabelIsReachable()
    ensures exists hand :: |hand| >= HandSize && Classify(hand).senia.None?
  {
    PoseClassified(false, false, false, false, false, false);
    var hand := Pose(false, false, false, false, false, false);
    assert |hand| >= HandSize && Classify(hand).senia.None?;
  }

  /** A label is produced for some hand exactly when it is one of the nine. */
  lemma ProducedExactly(l: Label)
    ensures (exists hand :: |hand| >= HandSize && Classify(hand).senia == Some(l)) <==> Produced(l)
  {
    if exists hand :: |hand| >= HandSize && Classify(hand).senia == Some(l) {
      var hand :| |hand| >= HandSize && Classify(hand).senia == Some(l);
      ResultRange(hand);
    }
    if Produced(l) {
      ProducedIsReachable(l);
    }
  }
}
