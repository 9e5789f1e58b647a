/**
 The shape classifier of the contour analyzer: a contour's measurements, as the
 geometry library reports them, and the fixed decision rule that maps them to a
 shape label (vertex count first, then the bounding-box aspect ratio for
 four-vertex polygons).
 */
module Classifier {

  /** The label a contour receives; `Unknown` is the initial value that survives
      when no branch of the decision rule applies. */
  datatype Label = Unknown | Triangle | Square | Rectangle | Circle {

    /** The text the analyzer stores under "Shape" and draws on the image. */
    function Name(): (s: string)
      ensures |s| > 0
    {
      match this
      case Unknown => "Unknown"
      case Triangle => "Triangle"
      case Square => "Square"
      case Rectangle => "Rectangle"
      case Circle => "Circle"
    }
  }

  /** What the geometry library reports about one contour:
      `area` (contour area), `perimeter` (closed arc length), `vertexCount`
      (number of points of the polygon approximation) and `w`, `h` (width and
      height of the approximation's bounding rectangle, read only when the
      polygon has four vertices). */
  datatype Contour = Contour(area: real, perimeter: real, vertexCount: nat, w: nat, h: nat)

  /** The aspect ratio is only computed for four-vertex polygons, and then the
      height must be non-zero for the division. */
  predicate Classifiable(c: Contour) {
    c.vertexCount == 4 ==> c.h >= 1
  }

  /** The square band: the aspect ratio `w / h` lies in [0.95, 1.05], both
      ends included. Real division is exact. */
  predicate AspectInBand(w: nat, h: nat)
    requires h >= 1
  {
    0.95 <= (w as real) / (h as real) <= 1.05
  }

  /** The same band stated over integers only, without any division. */
  predicate IntegerBand(w: nat, h: nat) {
    95 * h <= 100 * w <= 105 * h
  }

  /** The decision rule: three vertices make a triangle, four a square or a
      rectangle depending on the aspect ratio, more than four a circle, and
      fewer than three leave the label `Unknown`. */
  function Classify(c: Contour): (l: Label)
    requires Classifiable(c)
    ensures l == Triangle <==> c.vertexCount == 3
    ensures l == Square <==> c.vertexCount == 4 && IntegerBand(c.w, c.h)
    ensures l == Rectangle <==> c.vertexCount == 4 && !IntegerBand(c.w, c.h)
    ensures l == Circle <==> c.vertexCount > 4
    ensures l == Unknown <==> c.vertexCount < 3
  {
    if c.vertexCount == 3 then
      Triangle
    else if c.vertexCount == 4 then
      AspectBandIsIntegerBand(c.w, c.h);
      if AspectInBand(c.w, c.h) then Square else Rectangle
    else if c.vertexCount > 4 then
      Circle
    else
      Unknown
  }

  /** The real-valued aspect test agrees with the integer band for every
      width and every positive height. */
  lemma AspectBandIsIntegerBand(w: nat, h: nat)
    requires h >= 1
    ensures AspectInBand(w, h) <==> IntegerBand(w, h)
  {
    var r := (w as real) / (h as real);
    assert r * (h as real) == w as real;
    assert 0.95 <= r <==> 0.95 * (h as real) <= w as real by {
      assert (0.95 <= r ==> 0.95 * (h as real) <= r * (h as real));
      assert (0.95 > r ==> 0.95 * (h as real) > r * (h as real));
    }
    assert r <= 1.05 <==> w as real <= 1.05 * (h as real) by {
      assert (r <= 1.05 ==> r * (h as real) <= 1.05 * (h as real));
      assert (r > 1.05 ==> r * (h as real) > 1.05 * (h as real));
    }
  }

  /** The band is inclusive at both ends, and the nearest ratios outside it
      on either side are rejected, at every scale `k`. */
  lemma BandEdges(k: nat)
    requires k >= 1
    ensures AspectInBand(19 * k, 20 * k) && AspectInBand(21 * k, 20 * k)
    ensures !AspectInBand(19 * k - 1, 20 * k) && !AspectInBand(21 * k + 1, 20 * k)
  {
    AspectBandIsIntegerBand(19 * k, 20 * k);
    AspectBandIsIntegerBand(21 * k, 20 * k);
    AspectBandIsIntegerBand(19 * k - 1, 20 * k);
    AspectBandIsIntegerBand(21 * k + 1, 20 * k);
  }

  /** Scaling a bounding box uniformly does not move it into or out of the
      square band. */
  lemma AspectBandScaleInvariant(w: nat, h: nat, k: nat)
    requires h >= 1 && k >= 1
    ensures AspectInBand(k * w, k * h) <==> AspectInBand(w, h)
  {
    AspectBandIsIntegerBand(w, h);
    AspectBandIsIntegerBand(k * w, k * h);
    ScaleKeepsOrder(k, 95 * h, 100 * w);
    ScaleKeepsOrder(k, 100 * w, 105 * h);
    assert 100 * (k * w) == k * (100 * w);
    assert 95 * (k * h) == k * (95 * h);
    assert 105 * (k * h) == k * (105 * h);
  }

  lemma ScaleKeepsOrder(k: nat, a: nat, b: nat)
    requires k >= 1
    ensures a <= b <==> k * a <= k * b
  {
    if a > b {
      assert k * a == k * b + k * (a - b);
    } else {
      assert k * b == k * a + k * (b - a);
    }
  }

  /** Distinct labels are reported under distinct names. */
  lemma NamesDistinct(a: Label, b: Label)
    ensures a.Name() == b.Name() <==> a == b
  {
    if a != b {
      assert a.Name()[0] != b.Name()[0];
    }
  }
}
