/**
 * A detected hand and the finger states the classifier derives from it.
 * Coordinates are exact reals in normalized image space, where y grows downward.
 */
module Landmarks {

  /** One keypoint of a hand, as the landmark detector reports it (depth is never read). */
  datatype Landmark = Landmark(x: real, y: real)

  /**
   * Number of landmarks per hand. Index 0 is the wrist, 2 and 3 are thumb joints,
   * 4 the thumb tip, 8/12/16/20 the tips of index, middle, ring and pinky,
   * and 6/10/14/18 the joints those tips are compared with.
   */
  const HandSize: nat := 21

  /** The (tip, base) pairs of index, middle, ring and pinky, in that order. */
  const FingerPairs: seq<(nat, nat)> := [(8, 6), (12, 10), (16, 14), (20, 18)]

  /** Every landmark index that `pairs` names lies below `n`. */
  predicate PairsWithin(pairs: seq<(nat, nat)>, n: nat)
  {
    forall k :: 0 <= k < |pairs| ==> pairs[k].0 < n && pairs[k].1 < n
  }

  /**
   * The flags of the fingers named by `pairs`, one per pair and in order:
   * 1 (extended) when the tip lies strictly above its base, 0 (bent) otherwise.
   */
  function FingerFlags(hand: seq<Landmark>, pairs: seq<(nat, nat)>): (flags: seq<int>)
    requires PairsWithin(pairs, |hand|)
    ensures |flags| == |pairs|
    ensures forall k :: 0 <= k < |pairs| ==> flags[k] == 0 || flags[k] == 1
    ensures forall k :: 0 <= k < |pairs| ==>
              (flags[k] == 1 <==> hand[pairs[k].0].y < hand[pairs[k].1].y)
  {
    if pairs == [] then []
    else
      var (tip, base) := pairs[|pairs| - 1];
      FingerFlags(hand, pairs[..|pairs| - 1]) + [if hand[tip].y < hand[base].y then 1 else 0]
  }

  /** The four finger flags of a hand: index, middle, ring, pinky. */
  function Fingers(hand: seq<Landmark>): (flags: seq<int>)
    requires |hand| >= HandSize
  {
    FingerFlags(hand, FingerPairs)
  }

  /** The thumb flag: 1 when the thumb tip lies strictly left of (smaller x than) joint 3. */
  function Thumb(hand: seq<Landmark>): (flag: int)
    requires |hand| >= HandSize
  {
    if hand[4].x < hand[3].x then 1 else 0
  }

  /** The finger-state loop: appends one flag per (tip, base) pair, in order. */
  method FingerStates(hand: seq<Landmark>) returns (flags: seq<int>)
    requires |hand| >= HandSize
    ensures flags == Fingers(hand)
    ensures |flags| == 4
    ensures forall k :: 0 <= k < 4 ==>
              (flags[k] == 1 <==> hand[FingerPairs[k].0].y < hand[FingerPairs[k].1].y)
  {
    flags := [];
    var i := 0;
    while i < |FingerPairs|
      invariant 0 <= i <= |FingerPairs|
      invariant flags == FingerFlags(hand, FingerPairs[..i])
    {
      var (tip, base) := FingerPairs[i];
      flags := flags + [if hand[tip].y < hand[base].y then 1 else 0];
      i := i + 1;
    }
    assert FingerPairs[..i] == FingerPairs;
  }

  /**
   * The five flags spelled out landmark by landmark: each finger is extended exactly
   * when its tip's y is below its base's y, for (8,6), (12,10), (16,14), (20,18), and
   * the thumb exactly when landmark 4's x is below landmark 3's x.
   */
  lemma FingerStateMeaning(hand: seq<Landmark>)
    requires |hand| >= HandSize
    ensures |Fingers(hand)| == 4
    ensures forall k :: 0 <= k < 4 ==> Fingers(hand)[k] == 0 || Fingers(hand)[k] == 1
    ensures Fingers(hand)[0] == 1 <==> hand[8].y < hand[6].y
    ensures Fingers(hand)[1] == 1 <==> hand[12].y < hand[10].y
    ensures Fingers(hand)[2] == 1 <==> hand[16].y < hand[14].y
    ensures Fingers(hand)[3] == 1 <==> hand[20].y < hand[18].y
    ensures Thumb(hand) == 0 || Thumb(hand) == 1
    ensures Thumb(hand) == 1 <==> hand[4].x < hand[3].x
  {
    var f := Fingers(hand);
    assert FingerPairs[0] == (8, 6) && FingerPairs[1] == (12, 10);
    assert FingerPairs[2] == (16, 14) && FingerPairs[3] == (20, 18);
  }
}
