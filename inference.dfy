/**
 * One pass of the live-classification loop (training/inference_classifier.py): for
 * every hand the detector finds in a camera frame, rebuild the feature vector from that
 * hand alone, and only when it has 42 features ask the classifier and draw the hand's
 * box. The camera, the detector, the classifier and the drawing are outside the model:
 * a frame is its list of detected hands and its pixel size, and the result is the list
 * of classifier queries with their boxes.
 */
module Inference {
  import opened Landmarks

  /** Pixel corners of the box drawn around a hand. */
  datatype Box = Box(x1: int, y1: int, x2: int, y2: int)

  /** One call of `model.predict`, with the box drawn for it. */
  datatype Query = Query(features: seq<real>, box: Box)

  /** The pixel shift applied to both corners of the box. */
  const BoxShift: int := 10

  /** Python's `int()` on a float: truncation toward zero. */
  function Trunc(r: real): (t: int)
  {
    if r >= 0.0 then r.Floor else -((-r).Floor)
  }

  /** `Trunc` drops the fractional part: it moves toward zero by less than one. */
  lemma TruncTowardZero(r: real)
    ensures 0.0 <= r ==> Trunc(r) as real <= r < Trunc(r) as real + 1.0
    ensures r < 0.0 ==> Trunc(r) as real - 1.0 < r <= Trunc(r) as real
  {
  }

  lemma TruncMonotone(r: real, s: real)
    requires r <= s
    ensures Trunc(r) <= Trunc(s)
  {
  }

  lemma ScaleMonotone(a: real, b: real, w: real)
    requires a <= b && 0.0 <= w
    ensures a * w <= b * w
  {
    assert b * w - a * w == (b - a) * w;
  }

  /** A normalised coordinate as a box pixel: scaled to the frame size, truncated, shifted by -10. */
  function PixelOf(r: real, size: nat): (p: int)
  {
    Trunc(r * size as real) - BoxShift
  }

  /** Scaling, truncating and shifting preserves order. */
  lemma PixelMonotone(a: real, b: real, size: nat)
    requires a <= b
    ensures PixelOf(a, size) <= PixelOf(b, size)
  {
    var w := size as real;
    ScaleMonotone(a, b, w);
    TruncMonotone(a * w, b * w);
  }

  /** The box of a hand: its extreme coordinates as pixels. */
  function BoxOf(h: seq<Keypoint>, width: nat, height: nat): (b: Box)
    requires |h| > 0
  {
    Box(PixelOf(Min(Xs(h)), width), PixelOf(Min(Ys(h)), height),
        PixelOf(Max(Xs(h)), width), PixelOf(Max(Ys(h)), height))
  }

  /** Each coordinate lies between its hand's extremes. */
  lemma CoordinatesBetween(h: seq<Keypoint>, i: nat)
    requires i < |h|
    ensures Min(Xs(h)) <= h[i].x <= Max(Xs(h))
    ensures Min(Ys(h)) <= h[i].y <= Max(Ys(h))
  {
    assert Xs(h)[i] in Xs(h) && Ys(h)[i] in Ys(h);
  }

  /**
   * The box is well formed (x1 <= x2, y1 <= y2) and encloses every keypoint of its hand,
   * measured as pixels the same way.
   */
  lemma BoxEncloses(h: seq<Keypoint>, width: nat, height: nat)
    requires |h| > 0
    ensures BoxOf(h, width, height).x1 <= BoxOf(h, width, height).x2
    ensures BoxOf(h, width, height).y1 <= BoxOf(h, width, height).y2
    ensures forall i :: 0 <= i < |h| ==>
      && BoxOf(h, width, height).x1 <= PixelOf(h[i].x, width) <= BoxOf(h, width, height).x2
      && BoxOf(h, width, height).y1 <= PixelOf(h[i].y, height) <= BoxOf(h, width, height).y2
  {
    forall i | 0 <= i < |h|
      ensures BoxOf(h, width, height).x1 <= PixelOf(h[i].x, width) <= BoxOf(h, width, height).x2
      ensures BoxOf(h, width, height).y1 <= PixelOf(h[i].y, height) <= BoxOf(h, width, height).y2
    {
      CoordinatesBetween(h, i);
      PixelMonotone(Min(Xs(h)), h[i].x, width);
      PixelMonotone(h[i].x, Max(Xs(h)), width);
      PixelMonotone(Min(Ys(h)), h[i].y, height);
      PixelMonotone(h[i].y, Max(Ys(h)), height);
    }
    CoordinatesBetween(h, 0);
    PixelMonotone(Min(Xs(h)), Max(Xs(h)), width);
    PixelMonotone(Min(Ys(h)), Max(Ys(h)), height);
  }

  /** The queries one frame produces, in hand order: one per hand whose vector has 42 features. */
  function FrameQueries(hands: seq<seq<Keypoint>>, width: nat, height: nat): (r: seq<Query>)
  {
    if |hands| == 0 then []
    else
      var h := hands[|hands| - 1];
      FrameQueries(hands[..|hands| - 1], width, height)
        + (if |Features(h)| == FeatureCount then [Query(Features(h), BoxOf(h, width, height))] else [])
  }

  lemma FrameQueriesStep(hands: seq<seq<Keypoint>>, i: nat, width: nat, height: nat)
    requires i < |hands|
    ensures FrameQueries(hands[..i + 1], width, height)
         == FrameQueries(hands[..i], width, height)
            + (if |Features(hands[i])| == FeatureCount
               then [Query(Features(hands[i]), BoxOf(hands[i], width, height))] else [])
  {
    assert hands[..i + 1][..i] == hands[..i];
  }

  /**
   * The body of the `while True` loop for one frame: per hand, reset `x_`, `y_` and
   * `data_aux`, rebuild them from that hand, and query the classifier only at 42 features.
   */
  method ProcessFrame(hands: seq<seq<Keypoint>>, width: nat, height: nat) returns (queries: seq<Query>)
    ensures queries == FrameQueries(hands, width, height)
  {
    queries := [];
    var i := 0;
    while i < |hands|
      invariant 0 <= i <= |hands|
      invariant queries == FrameQueries(hands[..i], width, height)
    {
      var h := hands[i];
      FrameQueriesStep(hands, i, width, height);
      var dataAux, xs, ys := NormaliseHand(h);
      if |dataAux| == FeatureCount {
        var box := Box(PixelOf(Min(xs), width), PixelOf(Min(ys), height),
                       PixelOf(Max(xs), width), PixelOf(Max(ys), height));
        queries := queries + [Query(dataAux, box)];
      }
      i := i + 1;
    }
    assert hands[..i] == hands;
  }

  /**
   * A frame with no hand makes no query; otherwise the classifier is asked once per hand
   * with exactly 21 keypoints, always with 42 non-negative features computed from that
   * hand alone (the vector the training set holds for the same keypoints), and every box
   * is well formed.
   */
  lemma {:induction false} FrameQueriesFacts(hands: seq<seq<Keypoint>>, width: nat, height: nat)
    ensures |FrameQueries(hands, width, height)| == CompleteHands(hands)
    ensures forall q :: q in FrameQueries(hands, width, height) ==>
      && |q.features| == FeatureCount
      && (forall k :: 0 <= k < |q.features| ==> q.features[k] >= 0.0)
      && q.box.x1 <= q.box.x2 && q.box.y1 <= q.box.y2
      && exists h :: h in hands && |h| == HandKeypoints && q == Query(Features(h), BoxOf(h, width, height))
  {
    if |hands| > 0 {
      var init, h := hands[..|hands| - 1], hands[|hands| - 1];
      FrameQueriesFacts(init, width, height);
      FeaturesShape(h);
      FeaturesNonNegative(h);
      if |h| > 0 {
        BoxEncloses(h, width, height);
      }
      forall q | q in FrameQueries(hands, width, height)
        ensures exists h' :: h' in hands && |h'| == HandKeypoints && q == Query(Features(h'), BoxOf(h', width, height))
      {
        if q in FrameQueries(init, width, height) {
          var h' :| h' in init && |h'| == HandKeypoints && q == Query(Features(h'), BoxOf(h', width, height));
          assert h' in hands;
        } else {
          assert h in hands;
        }
      }
    }
  }
}
