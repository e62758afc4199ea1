/** The detection decision: from the classifier's probability vector to a
    detection record, by arg-max and a strict confidence threshold. */
module Decision {
  import opened Common

  /** confidence_threshold: a frame is accepted only strictly above it. */
  const Threshold: real := 0.8

  /** Class index 0 is 'A' (code point 65), index 1 is 'B', and so on. */
  const FirstCodePoint: nat := 65

  /** Class indices whose chr(65 + i) lies below the surrogate block, so that
      the label is a Dafny character. */
  const LabelLimit: nat := 0xD800 - 65

  /** np.max over the classifier's output. */
  function Max(p: seq<real>): (m: real)
    requires p != []
    ensures m in p
    ensures forall i :: 0 <= i < |p| ==> p[i] <= m
  {
    if |p| == 1 then p[0]
    else
      var rest := Max(p[1..]);
      assert forall i :: 1 <= i < |p| ==> p[i] == p[1..][i - 1];
      if p[0] >= rest then p[0] else rest
  }

  /** np.argmax over the classifier's output: the first index holding the
      largest probability. */
  function ArgMax(p: seq<real>): (k: nat)
    requires p != []
    ensures k < |p|
    ensures forall i :: 0 <= i < |p| ==> p[i] <= p[k]
    ensures forall i :: 0 <= i < k ==> p[i] < p[k]
  {
    if |p| == 1 then 0
    else
      var k := ArgMax(p[..|p| - 1]);
      assert forall i :: 0 <= i < |p| - 1 ==> p[i] == p[..|p| - 1][i];
      if p[|p| - 1] > p[k] then |p| - 1 else k
  }

  /** The probability at the arg-max is the maximum. */
  lemma ArgMaxAttainsMax(p: seq<real>)
    requires p != []
    ensures p[ArgMax(p)] == Max(p)
  {
  }

  /** chr(65 + k). */
  function Label(k: nat): string
    requires k < LabelLimit
  {
    [(FirstCodePoint + k) as char]
  }

  /** The decision for one classified frame: accept the arg-max label when
      the confidence is above the threshold, otherwise an empty character with
      "Low confidence"; the confidence is recorded either way. */
  function Decide(p: seq<real>): Detection
    requires p != [] && |p| <= LabelLimit
  {
    var confidence := Max(p);
    if confidence > Threshold then Detection(Label(ArgMax(p)), confidence, None)
    else Detection("", confidence, Some("Low confidence"))
  }

  /** A frame is accepted exactly when some class probability is above the
      threshold; and the recorded confidence is the maximum probability whether
      the frame is accepted or not. */
  lemma AcceptedIffAboveThreshold(p: seq<real>)
    requires p != [] && |p| <= LabelLimit
    ensures Decide(p).ch != "" <==> exists i :: 0 <= i < |p| && p[i] > Threshold
    ensures Decide(p).confidence in p
    ensures forall i :: 0 <= i < |p| ==> p[i] <= Decide(p).confidence
  {
  }

  /** An accepted frame records the single character chr(65 + argmax) and no
      message; a rejected one records "" with "Low confidence". */
  lemma DecisionLabel(p: seq<real>)
    requires p != [] && |p| <= LabelLimit
    ensures var d := Decide(p);
      if d.ch != "" then
        |d.ch| == 1 && d.ch[0] as int == 65 + ArgMax(p) && d.confidence > Threshold && d.message == None
      else
        d.confidence <= Threshold && d.message == Some("Low confidence")
  {
  }

  /** Moving the largest probability to another class changes the character:
      distinct arg-max indices give distinct labels. */
  lemma LabelInjective(j: nat, k: nat)
    requires j < LabelLimit && k < LabelLimit
    ensures Label(j) == Label(k) <==> j == k
  {
    if Label(j) == Label(k) {
      assert Label(j)[0] == Label(k)[0];
    }
  }

  /** The threshold is strict: a best probability of exactly 0.8 is rejected. */
  lemma ThresholdIsStrict(p: seq<real>)
    requires p != [] && |p| <= LabelLimit
    requires Max(p) == 0.8
    ensures Decide(p) == Detection("", 0.8, Some("Low confidence"))
  {
  }

  /** Any distribution whose largest probability, 0.95, is first reached at
      index 4 gives "E" with confidence 0.95. */
  lemma FifthClassIsE(p: seq<real>)
    requires 4 < |p| <= LabelLimit
    requires ArgMax(p) == 4 && Max(p) == 0.95
    ensures Decide(p) == Detection("E", 0.95, None)
  {
    assert Label(4) == "E";
  }
}
