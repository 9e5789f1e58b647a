/**
 The per-contour loop of the analyzer: every contour whose area reaches the
 noise threshold is classified, counted once and reported once, in the order
 the contours were found.
 */
module Analyzer {
  import opened Classifier

  datatype Option<T> = None | Some(value: T)

  /** One row of the result table: the label, the area and the perimeter. */
  datatype ShapeRecord = ShapeRecord(shape: Label, area: real, perimeter: real)

  /** Contours with a smaller area are noise. */
  const NoiseArea: real := 500.0

  predicate IsNoise(c: Contour) {
    c.area < NoiseArea
  }

  /** The analyzer only measures the bounding box of a contour that passed the
      noise filter, so only those need a classifiable measurement; it also
      reads the first vertex of every kept contour's polygon to place the
      label, so a kept polygon has at least one vertex. */
  predicate Admissible(c: Contour) {
    !IsNoise(c) ==> c.vertexCount >= 1 && Classifiable(c)
  }

  predicate AllAdmissible(cs: seq<Contour>) {
    forall i :: 0 <= i < |cs| ==> Admissible(cs[i])
  }

  lemma PrefixAdmissible(cs: seq<Contour>, n: nat)
    requires AllAdmissible(cs) && n <= |cs|
    ensures AllAdmissible(cs[..n])
  {
    forall i | 0 <= i < n ensures Admissible(cs[..n][i]) {
      assert cs[..n][i] == cs[i];
    }
  }

  /** The record built for a contour that is kept. */
  function ToRecord(c: Contour): (r: ShapeRecord)
    requires Classifiable(c)
    ensures r.shape == Classify(c) && r.area == c.area && r.perimeter == c.perimeter
  {
    ShapeRecord(Classify(c), c.area, c.perimeter)
  }

  /** One iteration of the loop: a noise contour yields nothing, any other
      contour, whatever its label (`Unknown` included), yields its record. */
  function Process(c: Contour): (r: Option<ShapeRecord>)
    requires Admissible(c)
    ensures r.None? <==> c.area < 500.0
    ensures r.Some? ==> r.value == ToRecord(c)
  {
    if IsNoise(c) then None else Some(ToRecord(c))
  }

  /** The results the loop has produced after visiting all of `cs`. */
  function Report(cs: seq<Contour>): (rs: seq<ShapeRecord>)
    requires AllAdmissible(cs)
    ensures |rs| <= |cs|
    ensures forall k :: 0 <= k < |rs| ==> rs[k].area >= NoiseArea
    decreases |cs|
  {
    if cs == [] then
      []
    else
      var n := |cs| - 1;
      PrefixAdmissible(cs, n);
      var prefix := Report(cs[..n]);
      match Process(cs[n])
      case None => prefix
      case Some(r) => prefix + [r]
  }

  /** Visiting one more contour appends its record to the results unless its
      area is below 500; an area of exactly 500 is kept. */
  lemma ReportStep(cs: seq<Contour>, c: Contour)
    requires AllAdmissible(cs) && Admissible(c)
    ensures AllAdmissible(cs + [c])
    ensures Report(cs + [c]) == Report(cs) + (if c.area < 500.0 then [] else [ToRecord(c)])
  {
    assert AllAdmissible(cs + [c]) by {
      forall i | 0 <= i < |cs + [c]| ensures Admissible((cs + [c])[i]) {
        if i < |cs| { assert (cs + [c])[i] == cs[i]; }
      }
    }
    assert (cs + [c])[..|cs|] == cs;
  }

  /** The positions, in increasing order, of the contours that pass the noise
      filter: an independent description of which contours are reported. */
  function KeptIndices(cs: seq<Contour>): (ix: seq<nat>)
    ensures |ix| <= |cs|
    ensures forall k :: 0 <= k < |ix| ==> ix[k] < |cs| && !IsNoise(cs[ix[k]])
    ensures forall k, l :: 0 <= k < l < |ix| ==> ix[k] < ix[l]
    ensures forall i :: 0 <= i < |cs| && !IsNoise(cs[i]) ==> i in ix
    decreases |cs|
  {
    if cs == [] then
      []
    else
      var n := |cs| - 1;
      var prefix := KeptIndices(cs[..n]);
      assert forall k :: 0 <= k < |prefix| ==> cs[..n][prefix[k]] == cs[prefix[k]];
      assert forall i :: 0 <= i < n ==> cs[..n][i] == cs[i];
      if IsNoise(cs[n]) then prefix else prefix + [n]
  }

  /** The set of positions whose contours pass the noise filter. */
  ghost function KeptSet(cs: seq<Contour>): set<nat> {
    set i: nat | i < |cs| && !IsNoise(cs[i])
  }

  lemma {:induction false} ReportFollowsKeptIndices(cs: seq<Contour>)
    requires AllAdmissible(cs)
    ensures |Report(cs)| == |KeptIndices(cs)|
    ensures forall k :: 0 <= k < |Report(cs)| ==>
              Report(cs)[k] == ToRecord(cs[KeptIndices(cs)[k]])
    decreases |cs|
  {
    if cs != [] {
      var n := |cs| - 1;
      PrefixAdmissible(cs, n);
      ReportFollowsKeptIndices(cs[..n]);
      var ix := KeptIndices(cs[..n]);
      forall k | 0 <= k < |ix| ensures cs[..n][ix[k]] == cs[ix[k]] {
      }
    }
  }

  lemma {:induction false} ReportCountsKept(cs: seq<Contour>)
    requires AllAdmissible(cs)
    ensures |Report(cs)| == |KeptSet(cs)|
    decreases |cs|
  {
    if cs != [] {
      var n := |cs| - 1;
      PrefixAdmissible(cs, n);
      ReportCountsKept(cs[..n]);
      var before := KeptSet(cs[..n]);
      assert n !in before;
      if IsNoise(cs[n]) {
        assert KeptSet(cs) == before;
      } else {
        assert KeptSet(cs) == before + {n};
      }
    }
  }

  lemma {:induction false} ReportAppend(a: seq<Contour>, b: seq<Contour>)
    requires AllAdmissible(a) && AllAdmissible(b)
    ensures AllAdmissible(a + b)
    ensures Report(a + b) == Report(a) + Report(b)
    decreases |b|
  {
    assert AllAdmissible(a + b) by {
      forall i | 0 <= i < |a + b| ensures Admissible((a + b)[i]) {
        if i < |a| { assert (a + b)[i] == a[i]; } else { assert (a + b)[i] == b[i - |a|]; }
      }
    }
    if b == [] {
      assert a + b == a;
    } else {
      var m := |b| - 1;
      PrefixAdmissible(b, m);
      ReportAppend(a, b[..m]);
      assert (a + b)[..|a + b| - 1] == a + b[..m];
      assert (a + b)[|a + b| - 1] == b[m];
    }
  }

  /** Wherever it stands in the input, a noise contour changes nothing in the
      results, and any other contour contributes exactly its own record at
      its own place. */
  lemma NoiseContributesNothing(a: seq<Contour>, c: Contour, b: seq<Contour>)
    requires AllAdmissible(a) && Admissible(c) && AllAdmissible(b)
    ensures AllAdmissible(a + [c] + b) && AllAdmissible(a + b)
    ensures IsNoise(c) ==> Report(a + [c] + b) == Report(a + b)
    ensures !IsNoise(c) ==> Report(a + [c] + b) == Report(a) + [ToRecord(c)] + Report(b)
  {
    assert AllAdmissible([c]);
    ReportAppend(a, [c]);
    ReportAppend(a + [c], b);
    ReportAppend(a, b);
    assert [c][..0] == [];
  }

  /** Every reported row carries the label its contour's vertex count and
      bounding box call for, and nothing else. */
  lemma ReportedLabels(cs: seq<Contour>, k: nat)
    requires AllAdmissible(cs)
    requires k < |Report(cs)|
    ensures k < |KeptIndices(cs)|
    ensures var c := cs[KeptIndices(cs)[k]];
            && c.area >= 500.0
            && (Report(cs)[k].shape == Triangle <==> c.vertexCount == 3)
            && (Report(cs)[k].shape == Square <==> c.vertexCount == 4 && IntegerBand(c.w, c.h))
            && (Report(cs)[k].shape == Rectangle <==> c.vertexCount == 4 && !IntegerBand(c.w, c.h))
            && (Report(cs)[k].shape == Circle <==> c.vertexCount > 4)
            && (Report(cs)[k].shape == Unknown <==> c.vertexCount < 3)
  {
    ReportFollowsKeptIndices(cs);
  }

  /** A triangle, a speck of noise exactly below the threshold, a square-ish
      box at the inclusive edge of the band, a two-point sliver exactly at the
      threshold and a wide box: four rows, in input order, the sliver labelled
      `Unknown` but still counted. */
  lemma MixedScene()
    ensures var cs := [ Contour(4330.0, 300.0, 3, 0, 0),
                        Contour(499.5, 90.0, 4, 22, 22),
                        Contour(6400.0, 320.0, 4, 84, 80),
                        Contour(500.0, 180.0, 2, 0, 0),
                        Contour(5000.0, 300.0, 4, 100, 50) ];
            AllAdmissible(cs) &&
            Report(cs) == [ ShapeRecord(Triangle, 4330.0, 300.0),
                            ShapeRecord(Square, 6400.0, 320.0),
                            ShapeRecord(Unknown, 500.0, 180.0),
                            ShapeRecord(Rectangle, 5000.0, 300.0) ]
  {
    var cs := [ Contour(4330.0, 300.0, 3, 0, 0),
                Contour(499.5, 90.0, 4, 22, 22),
                Contour(6400.0, 320.0, 4, 84, 80),
                Contour(500.0, 180.0, 2, 0, 0),
                Contour(5000.0, 300.0, 4, 100, 50) ];
    ReportAppend(cs[..4], [cs[4]]);
    ReportAppend(cs[..3], [cs[3]]);
    ReportAppend(cs[..2], [cs[2]]);
    ReportAppend(cs[..1], [cs[1]]);
    assert cs[..4] + [cs[4]] == cs;
    assert cs[..3] + [cs[3]] == cs[..4];
    assert cs[..2] + [cs[2]] == cs[..3];
    assert cs[..1] + [cs[1]] == cs[..2];
  }

  /** The contour loop: count and collect every contour that is not noise. */
  method Analyze(contours: seq<Contour>) returns (shapeCount: nat, results: seq<ShapeRecord>)
    requires AllAdmissible(contours)
    ensures shapeCount == |results|
    ensures results == Report(contours)
    ensures shapeCount == |KeptSet(contours)|
    ensures shapeCount <= |contours|
  {
    shapeCount := 0;
    results := [];
    for i := 0 to |contours|
      invariant shapeCount == |results|
      invariant results == Report(contours[..i])
    {
      assert contours[..i + 1][..i] == contours[..i];
      PrefixAdmissible(contours, i + 1);
      var cnt := contours[i];
      if cnt.area < 500.0 {
        continue;
      }
      var shapeName := Classify(cnt);
      shapeCount := shapeCount + 1;
      results := results + [ShapeRecord(shapeName, cnt.area, cnt.perimeter)];
    }
    assert contours[..|contours|] == contours;
    ReportCountsKept(contours);
  }
}
