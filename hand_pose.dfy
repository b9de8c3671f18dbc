/**
 * The per-frame input of the gesture controller: the three fingertip
 * landmarks reported by the hand-pose request, the confidence gate applied
 * to them, and the three-way gesture classification of Camera/CameraManager.swift.
 */
module HandPose {
  import opened Wrappers

  /** A recognized point: a normalized location and the detector's confidence. */
  datatype Landmark = Landmark(x: real, y: real, confidence: real)

  /** The tips the controller looks up in `recognizedPoints(.all)`; each may be missing. */
  datatype Observation = Observation(
    thumbTip: Option<Landmark>,
    indexTip: Option<Landmark>,
    middleTip: Option<Landmark>)

  /** The index and middle tips of an observation that passed the gate. */
  datatype Tips = Tips(index: Landmark, middle: Landmark)

  datatype Gesture = Fist | Peace | Palm

  /** A tip counts only with confidence strictly above this. */
  const MinConfidence: real := 0.3
  /** Index and middle tips closer than this are a fist. */
  const FistDistance: real := 0.05
  /** A vertical separation larger than this is a peace sign. */
  const PeaceSeparation: real := 0.1

  function Abs(r: real): (a: real)
    ensures a >= 0.0 && (a == r || a == -r)
  {
    if r < 0.0 then -r else r
  }

  predicate Confident(p: Landmark)
  {
    p.confidence > MinConfidence
  }

  /** All three tips are present and each is confident. */
  predicate Usable(o: Observation)
  {
    o.thumbTip.Some? && o.indexTip.Some? && o.middleTip.Some? &&
    Confident(o.thumbTip.value) && Confident(o.indexTip.value) && Confident(o.middleTip.value)
  }

  /**
   * The confidence gate: it passes exactly the observations whose three tips
   * are present and confident, and yields their index and middle tips.
   */
  function Gate(o: Observation): (r: Option<Tips>)
    ensures r.Some? <==> Usable(o)
    ensures r.Some? ==> r.value == Tips(o.indexTip.value, o.middleTip.value)
  {
    match (o.thumbTip, o.indexTip, o.middleTip)
    case (Some(thumb), Some(index), Some(middle)) =>
      if Confident(thumb) && Confident(index) && Confident(middle) then Some(Tips(index, middle)) else None
    case _ => None
  }

  function SquaredDistance(a: Landmark, b: Landmark): real
  {
    (a.x - b.x) * (a.x - b.x) + (a.y - b.y) * (a.y - b.y)
  }

  /** `hypot(dx, dy) < 0.05`, compared on squares. */
  predicate IsFist(t: Tips)
  {
    SquaredDistance(t.index, t.middle) < FistDistance * FistDistance
  }

  lemma SquareMonotone(a: real, b: real)
    requires 0.0 <= a <= b
    ensures a * a <= b * b
  {
    var aa, ab, bb := a * a, a * b, b * b;
    assert aa <= ab;
    assert ab <= bb;
  }

  lemma SquareStrictMonotone(a: real, b: real)
    requires 0.0 <= a < b
    ensures a * a < b * b
  {
    var aa, ab, bb := a * a, a * b, b * b;
    assert aa <= ab;
    assert ab < bb;
  }

  /** Comparing squares of non-negative numbers compares the numbers. */
  lemma SquareBound(a: real, b: real)
    requires 0.0 <= a && 0.0 <= b && a * a < b * b
    ensures a < b
  {
    assert (b - a) * (b + a) == b * b - a * a;
  }

  /**
   * The three-way classification: a fist when the tips are close, otherwise a
   * peace sign when they are vertically apart, otherwise an open palm.  A fist
   * always has the tips vertically close; a peace sign always has them far apart.
   */
  function Classify(t: Tips): (g: Gesture)
    ensures g == Fist ==> Abs(t.index.y - t.middle.y) < FistDistance
    ensures g == Peace ==> SquaredDistance(t.index, t.middle) > PeaceSeparation * PeaceSeparation
  {
    if IsFist(t) then
      CloseTipsAreLevel(t);
      Fist
    else if Abs(t.index.y - t.middle.y) > PeaceSeparation then
      ApartTipsAreFar(t);
      Peace
    else
      Palm
  }

  lemma CloseTipsAreLevel(t: Tips)
    requires IsFist(t)
    ensures Abs(t.index.y - t.middle.y) < FistDistance
  {
    var dx, dy := t.index.x - t.middle.x, t.index.y - t.middle.y;
    var xx, yy, ff := dx * dx, dy * dy, FistDistance * FistDistance;
    assert xx + yy == SquaredDistance(t.index, t.middle) < ff;
    assert xx >= 0.0;
    assert yy < ff;
    assert Abs(dy) * Abs(dy) == yy;
    SquareBound(Abs(dy), FistDistance);
  }

  lemma ApartTipsAreFar(t: Tips)
    requires Abs(t.index.y - t.middle.y) > PeaceSeparation
    ensures SquaredDistance(t.index, t.middle) > PeaceSeparation * PeaceSeparation
  {
    var dx, dy := t.index.x - t.middle.x, t.index.y - t.middle.y;
    var xx, yy, pp := dx * dx, dy * dy, PeaceSeparation * PeaceSeparation;
    assert xx + yy == SquaredDistance(t.index, t.middle);
    assert xx >= 0.0;
    SquareStrictMonotone(PeaceSeparation, Abs(dy));
    assert Abs(dy) * Abs(dy) == yy;
    assert pp < yy;
  }

  /**
   * The classification agrees with its statement in terms of the Euclidean
   * distance `d` that `hypot` computes: each gesture holds exactly on its region,
   * so the three regions cover every pair of tips and do not overlap.
   */
  /**
   * The fist test, which the lock filter and the classification both use, is
   * `hypot(dx, dy) < 0.05` for the Euclidean distance `d` of the two tips.
   */
  lemma IsFistMatchesHypot(t: Tips, d: real)
    requires d >= 0.0 && d * d == SquaredDistance(t.index, t.middle)
    ensures IsFist(t) <==> d < FistDistance
  {
    if d < FistDistance {
      SquareStrictMonotone(d, FistDistance);
    } else {
      SquareMonotone(FistDistance, d);
    }
  }

  lemma ClassifyMatchesHypot(t: Tips, d: real)
    requires d >= 0.0 && d * d == SquaredDistance(t.index, t.middle)
    ensures Classify(t) == Fist <==> d < FistDistance
    ensures Classify(t) == Peace <==> d >= FistDistance && Abs(t.index.y - t.middle.y) > PeaceSeparation
    ensures Classify(t) == Palm <==> d >= FistDistance && Abs(t.index.y - t.middle.y) <= PeaceSeparation
  {
    IsFistMatchesHypot(t, d);
  }
}
