/**
 * The hand-landmark feature vector shared by the training scripts
 * (training/create_dataset.py and training/inference_classifier.py): each keypoint's
 * x and y shifted by the smallest x and the smallest y of its hand, interleaved.
 */
module Landmarks {

  /** The two coordinates of a hand keypoint that the scripts read. */
  datatype Keypoint = Keypoint(x: real, y: real)

  /** Keypoints per hand, and features per hand vector, that the classifier is trained on. */
  const HandKeypoints: nat := 21
  const FeatureCount: nat := 42

  /** The `x_` list: the x coordinates in keypoint order. */
  function Xs(h: seq<Keypoint>): (r: seq<real>)
    ensures |r| == |h| && forall i :: 0 <= i < |h| ==> r[i] == h[i].x
  {
    seq(|h|, i requires 0 <= i < |h| => h[i].x)
  }

  /** The `y_` list: the y coordinates in keypoint order. */
  function Ys(h: seq<Keypoint>): (r: seq<real>)
    ensures |r| == |h| && forall i :: 0 <= i < |h| ==> r[i] == h[i].y
  {
    seq(|h|, i requires 0 <= i < |h| => h[i].y)
  }

  /** Python's `min`: an element no larger than any other. */
  function Min(s: seq<real>): (m: real)
    requires |s| > 0
    ensures m in s
    ensures forall e :: e in s ==> m <= e
  {
    if |s| == 1 then s[0]
    else
      var rest := Min(s[1..]);
      assert forall e :: e in s ==> e == s[0] || e in s[1..];
      if s[0] <= rest then s[0] else rest
  }

  /** Python's `max`: an element no smaller than any other. */
  function Max(s: seq<real>): (m: real)
    requires |s| > 0
    ensures m in s
    ensures forall e :: e in s ==> e <= m
  {
    if |s| == 1 then s[0]
    else
      var rest := Max(s[1..]);
      assert forall e :: e in s ==> e == s[0] || e in s[1..];
      if rest <= s[0] then s[0] else rest
  }

  /** The number of hands in a list that have exactly 21 keypoints. */
  function CompleteHands(hands: seq<seq<Keypoint>>): (n: nat)
  {
    if |hands| == 0 then 0
    else CompleteHands(hands[..|hands| - 1]) + (if |hands[|hands| - 1]| == HandKeypoints then 1 else 0)
  }

  /** Each keypoint contributes `x - mx` then `y - my`, in keypoint order. */
  function Shifted(h: seq<Keypoint>, mx: real, my: real): (v: seq<real>)
  {
    if |h| == 0 then []
    else Shifted(h[..|h| - 1], mx, my) + [h[|h| - 1].x - mx, h[|h| - 1].y - my]
  }

  /** The `data_aux` vector of a hand. */
  function Features(h: seq<Keypoint>): (v: seq<real>)
  {
    if |h| == 0 then [] else Shifted(h, Min(Xs(h)), Min(Ys(h)))
  }

  lemma {:induction false} ShiftedAt(h: seq<Keypoint>, mx: real, my: real)
    ensures |Shifted(h, mx, my)| == 2 * |h|
    ensures forall i :: 0 <= i < |h| ==>
      Shifted(h, mx, my)[2 * i] == h[i].x - mx && Shifted(h, mx, my)[2 * i + 1] == h[i].y - my
  {
    if |h| > 0 {
      var init := h[..|h| - 1];
      ShiftedAt(init, mx, my);
      forall i | 0 <= i < |h|
        ensures Shifted(h, mx, my)[2 * i] == h[i].x - mx && Shifted(h, mx, my)[2 * i + 1] == h[i].y - my
      {
        if i < |h| - 1 {
          assert h[i] == init[i];
        }
      }
    }
  }

  /**
   * The vector has two features per keypoint: feature 2i is `x_i - min(x)` and
   * feature 2i+1 is `y_i - min(y)`.
   */
  lemma FeaturesShape(h: seq<Keypoint>)
    ensures |Features(h)| == 2 * |h|
    ensures |h| > 0 ==> forall i :: 0 <= i < |h| ==>
      Features(h)[2 * i] == h[i].x - Min(Xs(h)) && Features(h)[2 * i + 1] == h[i].y - Min(Ys(h))
  {
    if |h| > 0 {
      ShiftedAt(h, Min(Xs(h)), Min(Ys(h)));
    }
  }

  /** Every feature is non-negative, since each coordinate is at least its hand's minimum. */
  lemma FeaturesNonNegative(h: seq<Keypoint>)
    ensures forall k :: 0 <= k < |Features(h)| ==> Features(h)[k] >= 0.0
  {
    FeaturesShape(h);
    forall k | 0 <= k < |Features(h)|
      ensures Features(h)[k] >= 0.0
    {
      var i := k / 2;
      assert k == 2 * i || k == 2 * i + 1;
      assert h[i].x == Xs(h)[i] && Xs(h)[i] in Xs(h);
      assert h[i].y == Ys(h)[i] && Ys(h)[i] in Ys(h);
    }
  }

  /**
   * The minimum is attained, so some x-feature and some y-feature are exactly zero:
   * the vector is the hand translated to touch both axes.
   */
  lemma FeaturesTouchAxes(h: seq<Keypoint>)
    requires |h| > 0
    ensures |Features(h)| == 2 * |h|
    ensures exists i :: 0 <= i < |h| && Features(h)[2 * i] == 0.0
    ensures exists i :: 0 <= i < |h| && Features(h)[2 * i + 1] == 0.0
  {
    FeaturesShape(h);
    var xs, ys := Xs(h), Ys(h);
    var ix :| 0 <= ix < |xs| && xs[ix] == Min(xs);
    var iy :| 0 <= iy < |ys| && ys[iy] == Min(ys);
    assert Features(h)[2 * ix] == 0.0;
    assert Features(h)[2 * iy + 1] == 0.0;
  }

  /**
   * The per-hand body shared by both scripts: collect `x_` and `y_`, then append the
   * shifted coordinates to a fresh `data_aux`.
   */
  method NormaliseHand(h: seq<Keypoint>) returns (features: seq<real>, xs: seq<real>, ys: seq<real>)
    ensures xs == Xs(h) && ys == Ys(h)
    ensures features == Features(h)
  {
    xs, ys := [], [];
    var i := 0;
    while i < |h|
      invariant 0 <= i <= |h|
      invariant xs == Xs(h[..i]) && ys == Ys(h[..i])
    {
      xs := xs + [h[i].x];
      ys := ys + [h[i].y];
      i := i + 1;
    }
    assert h[..|h|] == h;
    features := [];
    if |h| == 0 {
      return;
    }
    var mx, my := Min(xs), Min(ys);
    i := 0;
    while i < |h|
      invariant 0 <= i <= |h|
      invariant features == Shifted(h[..i], mx, my)
    {
      assert h[..i + 1][..i] == h[..i];
      features := features + [h[i].x - mx, h[i].y - my];
      i := i + 1;
    }
  }
}
