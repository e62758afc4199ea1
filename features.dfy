/** The feature vectoriser: the first tracked hand's landmarks flattened into
    the classifier's input. */
module Features {
  import opened Common

  /** Reference definition: x, y and z of every point, point after point. */
  function Flatten(hand: Hand): seq<real>
  {
    if hand == [] then [] else [hand[0].x, hand[0].y, hand[0].z] + Flatten(hand[1..])
  }

  /** Three coordinates per point. */
  lemma {:induction false} FlattenLength(hand: Hand)
    ensures |Flatten(hand)| == 3 * |hand|
  {
    if hand != [] {
      FlattenLength(hand[1..]);
    }
  }

  /** Point i's coordinates sit at positions 3i, 3i+1 and 3i+2. */
  lemma {:induction false} FlattenAt(hand: Hand, i: nat)
    requires i < |hand|
    ensures |Flatten(hand)| == 3 * |hand|
    ensures Flatten(hand)[3 * i] == hand[i].x
    ensures Flatten(hand)[3 * i + 1] == hand[i].y
    ensures Flatten(hand)[3 * i + 2] == hand[i].z
  {
    FlattenLength(hand);
    if i > 0 {
      FlattenAt(hand[1..], i - 1);
    }
  }

  /** One more point extends the vector by that point's three coordinates. */
  lemma {:induction false} FlattenSnoc(hand: Hand, p: Point)
    ensures Flatten(hand + [p]) == Flatten(hand) + [p.x, p.y, p.z]
  {
    if hand == [] {
      assert [] + [p] == [p];
    } else {
      assert (hand + [p])[0] == hand[0];
      assert (hand + [p])[1..] == hand[1..] + [p];
      FlattenSnoc(hand[1..], p);
    }
  }

  /** landmarks_to_feature_vector: no vector when the tracker found no hand
      (None or an empty list); otherwise the first hand's points, flattened
      in order, and later hands ignored. */
  method LandmarksToFeatureVector(landmarks: Option<seq<Hand>>) returns (features: Option<seq<real>>)
    ensures features.None? <==> landmarks.None? || landmarks.value == []
    ensures features.Some? ==> features.value == Flatten(landmarks.value[0])
    ensures features.Some? ==> |features.value| == 3 * |landmarks.value[0]|
    ensures features.Some? ==>
      forall i :: 0 <= i < |landmarks.value[0]| ==>
        features.value[3 * i] == landmarks.value[0][i].x &&
        features.value[3 * i + 1] == landmarks.value[0][i].y &&
        features.value[3 * i + 2] == landmarks.value[0][i].z
  {
    if landmarks.None? || landmarks.value == [] {
      return None;
    }
    var hand := landmarks.value[0];
    var handData: seq<real> := [];
    for i := 0 to |hand|
      invariant handData == Flatten(hand[..i])
    {
      FlattenSnoc(hand[..i], hand[i]);
      assert hand[..i + 1] == hand[..i] + [hand[i]];
      handData := handData + [hand[i].x, hand[i].y, hand[i].z];
    }
    assert hand[..|hand|] == hand;
    FlattenLength(hand);
    forall i | 0 <= i < |hand|
      ensures handData[3 * i] == hand[i].x && handData[3 * i + 1] == hand[i].y && handData[3 * i + 2] == hand[i].z
    {
      FlattenAt(hand, i);
    }
    features := Some(handData);
  }
}
