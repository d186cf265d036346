/** Elevation profiles along a densified line, and the line-of-sight test over them. */
module Sight {
  import opened Wrappers
  import opened Terrain

  // ---------------------------------------------------------------- profiles

  /** The two legs whose arctangent is the slope in degrees. */
  datatype Slope = Slope(rise: real, run: real)

  datatype ProfilePoint = ProfilePoint(sample: Sample, elevation: Option<real>, slope: Option<Slope>)

  /** The last known elevation before point `i`. */
  function LastKnown(ground: Ground, s: seq<Sample>, i: nat): Option<real>
    requires i <= |s|
  {
    if i == 0 then None
    else if ground(s[i - 1].at).Some? then ground(s[i - 1].at)
    else LastKnown(ground, s, i - 1)
  }

  function DistBefore(s: seq<Sample>, i: nat): real
    requires i <= |s|
  {
    if i == 0 then 0.0 else s[i - 1].dist
  }

  function ProfileAt(ground: Ground, s: seq<Sample>, i: nat): ProfilePoint
    requires i < |s|
  {
    var e, last, run := ground(s[i].at), LastKnown(ground, s, i), s[i].dist - DistBefore(s, i);
    ProfilePoint(s[i], e, if e.Some? && last.Some? && run > 0.0 then Some(Slope(e.value - last.value, run)) else None)
  }

  method Profile(metric: Metric, ground: Ground, line: seq<Coord>, step: real) returns (points: seq<ProfilePoint>)
    requires line != [] && step != 0.0
    ensures |points| == |Densified(metric, line, step)|
    ensures forall i: nat :: i < |points| ==> points[i] == ProfileAt(ground, Densified(metric, line, step), i)
  {
    var samples := Densify(metric, line, step);
    points := [];
    var lastKnown: Option<real> := None;
    var lastDist := 0.0;
    for i := 0 to |samples|
      invariant |points| == i && lastKnown == LastKnown(ground, samples, i) && lastDist == DistBefore(samples, i)
      invariant forall j: nat :: j < i ==> points[j] == ProfileAt(ground, samples, j)
    {
      var elevation := ground(samples[i].at);
      var slope := None;
      if elevation.Some? && lastKnown.Some? && samples[i].dist > lastDist {
        slope := Some(Slope(elevation.value - lastKnown.value, samples[i].dist - lastDist));
      }
      points := points + [ProfilePoint(samples[i], elevation, slope)];
      if elevation.Some? {
        lastKnown := elevation;
      }
      lastDist := samples[i].dist;
    }
  }

  lemma {:induction false} LastKnownAt(ground: Ground, s: seq<Sample>, j: nat, i: nat)
    requires j < i <= |s| && ground(s[j].at).Some? && forall k :: j < k < i ==> ground(s[k].at).None?
    ensures LastKnown(ground, s, i) == ground(s[j].at)
  {
    if j + 1 < i {
      LastKnownAt(ground, s, j, i - 1);
    }
  }

  lemma {:induction false} NoneKnown(ground: Ground, s: seq<Sample>, i: nat)
    requires i <= |s|
    ensures LastKnown(ground, s, i).Some? <==> exists j :: 0 <= j < i && ground(s[j].at).Some?
  {
    if i > 0 {
      NoneKnown(ground, s, i - 1);
      if exists j :: 0 <= j < i && ground(s[j].at).Some? {
        var j :| 0 <= j < i && ground(s[j].at).Some?;
        assert j < i - 1 || j == i - 1;
      }
    }
  }

  /** A point has a slope if and only if its elevation and that of some point before it are known. */
  lemma SlopeIff(metric: Metric, ground: Ground, line: seq<Coord>, step: real, i: nat)
    requires line != [] && step > 0.0 && i < |Densified(metric, line, step)|
    ensures var s := Densified(metric, line, step);
            var p := ProfileAt(ground, s, i);
            && p.sample == s[i] && p.elevation == ground(s[i].at)
            && (p.slope.Some? <==> ground(s[i].at).Some? && exists j :: 0 <= j < i && ground(s[j].at).Some?)
  {
    DensifiedLaws(metric, line, step);
    NoneKnown(ground, Densified(metric, line, step), i);
  }

  /**
   Where a known point follows a gap in the elevations, the rise is taken from the last known point
   `j` but the run only from the point before: the slope is the true gradient between the known
   points exactly when there is no gap or no rise.
   */
  lemma SlopeAcrossGap(metric: Metric, ground: Ground, line: seq<Coord>, step: real, j: nat, i: nat)
    requires line != [] && step > 0.0
    requires var s := Densified(metric, line, step);
             && j < i < |s| && ground(s[j].at).Some? && ground(s[i].at).Some?
             && forall k :: j < k < i ==> ground(s[k].at).None?
    ensures var s := Densified(metric, line, step);
            var rise, slope := ground(s[i].at).value - ground(s[j].at).value, ProfileAt(ground, s, i).slope;
            && s[j].dist <= s[i - 1].dist < s[i].dist
            && slope == Some(Slope(rise, s[i].dist - s[i - 1].dist))
            && (slope.value.rise / slope.value.run == rise / (s[i].dist - s[j].dist) <==> j == i - 1 || rise == 0.0)
  {
    var s := Densified(metric, line, step);
    DensifiedLaws(metric, line, step);
    LastKnownAt(ground, s, j, i);
    if j < i - 1 {
      assert s[j].dist < s[i - 1].dist < s[i].dist;
      RatiosDiffer(ground(s[i].at).value - ground(s[j].at).value, s[i].dist - s[i - 1].dist, s[i].dist - s[j].dist);
    }
  }

  lemma RatiosDiffer(rise: real, run: real, longer: real)
    requires 0.0 < run < longer
    ensures rise / run == rise / longer <==> rise == 0.0
  {
    var q := rise / run;
    assert q * run == rise;
    if q == rise / longer {
      assert q * longer == rise;
      assert q * (longer - run) == 0.0;
    }
  }

  // ---------------------------------------------------------------- line of sight

  datatype View = View(
    observer: Coord,
    target: Coord,
    observerHeight: real,
    targetHeight: real,
    refraction: Option<real>)

  datatype Note = Plain | MissingElevation | NoDem

  datatype Report = Report(visible: bool, obstruction: Option<Sample>, note: Note)

  function Samples(metric: Metric, v: View, step: real): (s: seq<Sample>)
    requires step != 0.0
    ensures s != []
  {
    Densified(metric, [v.observer, v.target], step)
  }

  predicate Curved(refraction: Option<real>) { refraction.Some? && refraction.value > 0.0 }

  /** Half the drop of the ray, at `d` of `total`, below its chord over the effective Earth. */
  function Bulge(refraction: real, total: real, d: real): real
    requires refraction > 0.0
  {
    (d * (total - d)) / (2.0 * (refraction * EARTH_RADIUS))
  }

  /** Height of the ray at distance `d`. */
  function Ray(h0: real, h1: real, total: real, refraction: Option<real>, d: real): real
    requires total != 0.0
  {
    var linear := h0 + (h1 - h0) * (d / total);
    if Curved(refraction) then linear - Bulge(refraction.value, total, d) else linear
  }

  function Total(s: seq<Sample>): real
    requires s != []
    ensures Total(s) != 0.0
  {
    var d := s[|s| - 1].dist;
    if d == 0.0 then 1.0 else d
  }

  predicate EndsKnown(ground: Ground, s: seq<Sample>)
    requires s != []
  {
    ground(s[0].at).Some? && ground(s[|s| - 1].at).Some?
  }

  function RayAt(ground: Ground, v: View, s: seq<Sample>, d: real): real
    requires s != [] && EndsKnown(ground, s)
  {
    Ray(ground(s[0].at).value + v.observerHeight, ground(s[|s| - 1].at).value + v.targetHeight, Total(s), v.refraction, d)
  }

  /** An interior sample whose known elevation exceeds the ray. */
  predicate Blocks(ground: Ground, v: View, s: seq<Sample>, i: int)
    requires s != [] && EndsKnown(ground, s)
  {
    0 < i < |s| - 1 && ground(s[i].at).Some? && ground(s[i].at).value > RayAt(ground, v, s, s[i].dist)
  }

  ghost predicate Visible(metric: Metric, ground: Ground, v: View, step: real)
    requires step != 0.0
  {
    var s := Samples(metric, v, step);
    EndsKnown(ground, s) && forall i :: 0 < i < |s| - 1 ==> !Blocks(ground, v, s, i)
  }

  /**
   `line_of_sight`: not visible when an endpoint's elevation is missing; otherwise obstructed exactly
   when some known interior sample exceeds the ray, and then the first such sample is reported.
   */
  method LineOfSight(metric: Metric, ground: Ground, v: View, step: real) returns (r: Report)
    requires step != 0.0
    ensures r.visible <==> Visible(metric, ground, v, step)
    ensures r.note == (if EndsKnown(ground, Samples(metric, v, step)) then Plain else MissingElevation)
    ensures r.obstruction.Some? <==> r.note == Plain && !r.visible
    ensures r.obstruction.Some? ==>
              var s := Samples(metric, v, step);
              exists i :: Blocks(ground, v, s, i) && r.obstruction.value == s[i] && forall j :: 0 < j < i ==> !Blocks(ground, v, s, j)
  {
    var points := Profile(metric, ground, [v.observer, v.target], step);
    ghost var s := Samples(metric, v, step);
    var first, last := points[0].elevation, points[|points| - 1].elevation;
    if first.None? || last.None? {
      return Report(false, None, MissingElevation);
    }
    var h0, h1 := first.value + v.observerHeight, last.value + v.targetHeight;
    var end := points[|points| - 1].sample.dist;
    var total := if end == 0.0 then 1.0 else end;
    var i := 1;
    while i < |points| - 1
      invariant i >= 1
      invariant forall j :: 0 < j < i && j < |s| - 1 ==> !Blocks(ground, v, s, j)
      decreases |points| - i
    {
      var elevation := points[i].elevation;
      if elevation.Some? && elevation.value > Ray(h0, h1, total, v.refraction, points[i].sample.dist) {
        assert Blocks(ground, v, s, i);
        return Report(false, Some(points[i].sample), Plain);
      }
      i := i + 1;
    }
    r := Report(true, None, Plain);
  }

  // ---------------------------------------------------------------- what the ray is

  /** The drop of the ray below its chord, division free. */
  lemma BulgeIs(k: real, total: real, d: real)
    requires k > 0.0
    ensures Bulge(k, total, d) * (2.0 * k * 6371000.0) == d * (total - d)
  {
    var scale := 2.0 * (k * EARTH_RADIUS);
    assert scale == 2.0 * k * 6371000.0 && scale > 0.0;
    assert (d * (total - d)) / scale * scale == d * (total - d);
  }

  /**
   The ray starts at the observer's height and ends at the target's.  Without a positive refraction
   factor it is the straight line between them; with one it runs lower by d (total - d) / (2 k R).
   */
  lemma RayIs(h0: real, h1: real, total: real, k: real, d: real)
    requires total > 0.0
    ensures forall r :: Ray(h0, h1, total, r, 0.0) == h0 && Ray(h0, h1, total, r, total) == h1
    ensures (Ray(h0, h1, total, None, d) - h0) * total == (h1 - h0) * d
    ensures k > 0.0 ==>
              (Ray(h0, h1, total, None, d) - Ray(h0, h1, total, Some(k), d)) * (2.0 * k * 6371000.0) == d * (total - d)
    ensures k <= 0.0 ==> Ray(h0, h1, total, Some(k), d) == Ray(h0, h1, total, None, d)
  {
    forall r
      ensures Ray(h0, h1, total, r, 0.0) == h0 && Ray(h0, h1, total, r, total) == h1
    {
      assert 0.0 / total == 0.0 && total / total == 1.0;
      if Curved(r) {
        QuotientIs(0.0, 2.0 * (r.value * EARTH_RADIUS), 0.0);
      }
    }
    var t := d / total;
    assert t * total == d;
    assert (h0 + (h1 - h0) * t - h0) * total == (h1 - h0) * (t * total);
    if k > 0.0 {
      BulgeIs(k, total, d);
    }
  }

  /**
   An elevation `e` at distance `d` stays below the sight line from `h0` to `h1`: above the chord by no
   more than nothing, or, with a positive factor `k`, below it by at least d (total - d) / (2 k R).
   Both sides are multiplied by `total`, and by 2 k R.
   */
  predicate Clears(e: real, h0: real, h1: real, total: real, k: Option<real>, d: real) {
    var rise := (e - h0) * total - (h1 - h0) * d;
    if k.Some? && k.value > 0.0 then rise * (2.0 * k.value * 6371000.0) + d * (total - d) * total <= 0.0 else rise <= 0.0
  }

  lemma SameSign(x: real, y: real, scale: real)
    requires scale > 0.0 && x * scale == y
    ensures x > 0.0 <==> y > 0.0
  {
    if x > 0.0 {
      assert x * scale > 0.0;
    } else {
      assert x * scale <= 0.0;
    }
  }

  lemma ClearsRay(e: real, h0: real, h1: real, total: real, k: Option<real>, d: real)
    requires total > 0.0
    ensures e > Ray(h0, h1, total, k, d) <==> !Clears(e, h0, h1, total, k, d)
  {
    var over, chord := e - Ray(h0, h1, total, k, d), Ray(h0, h1, total, None, d);
    var rise := (e - h0) * total - (h1 - h0) * d;
    RayIs(h0, h1, total, if Curved(k) then k.value else 0.0, d);
    assert (e - chord) * total == (e - h0) * total - (chord - h0) * total == rise;
    if Curved(k) {
      var scale := 2.0 * k.value * 6371000.0;
      assert over == e - chord + (chord - Ray(h0, h1, total, k, d));
      ScaleSum(e - chord, chord - Ray(h0, h1, total, k, d), total, scale, rise, d * (total - d));
      SameSign(over, rise * scale + d * (total - d) * total, total * scale);
    } else {
      SameSign(over, rise, total);
    }
  }

  lemma ScaleSum(x: real, y: real, total: real, scale: real, rise: real, drop: real)
    requires x * total == rise && y * scale == drop && total > 0.0 && scale > 0.0
    ensures (x + y) * (total * scale) == rise * scale + drop * total && total * scale > 0.0
  {
    assert (x + y) * (total * scale) == (x * total) * scale + (y * scale) * total;
  }

  // ---------------------------------------------------------------- the two samplings of a segment

  lemma OneSegment(metric: Metric, v: View, step: real)
    requires step != 0.0
    ensures var seg, s := metric(v.observer, v.target), Samples(metric, v, step);
            if seg < MIN_SEGMENT then s == [Sample(v.target, 0.0)]
            else
              var n := Pieces(seg, step);
              && |s| == n + 1 && s[n] == Sample(v.target, seg)
              && forall k: nat :: k <= n ==> s[k] == StepAt(v.observer, v.target, 0.0, seg, n, k)
  {
    var line := [v.observer, v.target];
    assert Walk(metric, line, step, 0) == Path([], 0.0);
    var seg := metric(v.observer, v.target);
    if seg >= MIN_SEGMENT {
      var n := Pieces(seg, step);
      var steps := Steps(v.observer, v.target, 0.0, seg, n, n);
      assert [] + steps == steps;
      assert Walk(metric, line, step, 1) == Path(steps, 0.0 + seg);
      assert Samples(metric, v, step) == steps + [Sample(v.target, seg)];
      forall k: nat | k <= n
        ensures Samples(metric, v, step)[k] == StepAt(v.observer, v.target, 0.0, seg, n, k)
      {
        if k < n {
          StepsAt(v.observer, v.target, 0.0, seg, n, n, k);
        } else {
          assert Fraction(n, n) == 1.0;
        }
      }
    }
  }

  /** Below the sight line from eye to eye, where the elevation is known. */
  ghost predicate Below(ground: Ground, v: View, seg: real, p: Sample)
    requires ground(v.observer).Some? && ground(v.target).Some?
  {
    ground(p.at).Some? ==>
      Clears(ground(p.at).value, ground(v.observer).value + v.observerHeight, ground(v.target).value + v.targetHeight, seg,
             v.refraction, p.dist)
  }

  lemma EndSamples(metric: Metric, v: View, step: real)
    requires step != 0.0 && metric(v.observer, v.target) >= MIN_SEGMENT
    ensures var seg, s := metric(v.observer, v.target), Samples(metric, v, step);
            var n := Pieces(seg, step);
            && |s| == n + 1 && s[0].at == v.observer && s[n].at == v.target && Total(s) == seg
            && forall k: nat :: k <= n ==> OnPath(s[k], v.observer, v.target, 0.0, seg, n, k)
  {
    var seg, s := metric(v.observer, v.target), Samples(metric, v, step);
    var n := Pieces(seg, step);
    OneSegment(metric, v, step);
    assert Fraction(0, n) == 0.0;
    forall k: nat | k <= n
      ensures OnPath(s[k], v.observer, v.target, 0.0, seg, n, k)
    {
      StepOnPath(v.observer, v.target, 0.0, seg, n, k);
    }
  }

  lemma StepBlocks(metric: Metric, ground: Ground, v: View, step: real, k: nat)
    requires step != 0.0 && metric(v.observer, v.target) >= MIN_SEGMENT
    requires ground(v.observer).Some? && ground(v.target).Some?
    requires 0 < k < Pieces(metric(v.observer, v.target), step)
    ensures var s := Samples(metric, v, step);
            && |s| == Pieces(metric(v.observer, v.target), step) + 1 && EndsKnown(ground, s)
            && (Blocks(ground, v, s, k) <==> !Below(ground, v, metric(v.observer, v.target), s[k]))
  {
    var seg, s := metric(v.observer, v.target), Samples(metric, v, step);
    EndSamples(metric, v, step);
    if ground(s[k].at).Some? {
      ClearsRay(ground(s[k].at).value, ground(v.observer).value + v.observerHeight, ground(v.target).value + v.targetHeight, seg,
                v.refraction, s[k].dist);
    }
  }

  /**
   Visibility in full, without the engine's own terms.  Over a segment of at least a micrometre, cut into
   the least number of equal steps within the step length, the target is visible if and only if both ends
   have an elevation and every point strictly between whose elevation is known stays below the sight line
   from eye to eye.
   */
  lemma VisibleExactly(metric: Metric, ground: Ground, v: View, step: real, n: nat)
    requires step != 0.0 && metric(v.observer, v.target) >= 0.000001 && LeastSteps(metric(v.observer, v.target), step, n)
    ensures Visible(metric, ground, v, step) <==>
              && ground(v.observer).Some? && ground(v.target).Some?
              && forall k: nat, p: Sample :: 0 < k < n && OnPath(p, v.observer, v.target, 0.0, metric(v.observer, v.target), n, k) ==>
                   Below(ground, v, metric(v.observer, v.target), p)
  {
    var seg, s := metric(v.observer, v.target), Samples(metric, v, step);
    PiecesLeast(seg, step);
    LeastIsLeast(seg, step, n, Pieces(seg, step));
    LeastIsLeast(seg, step, Pieces(seg, step), n);
    EndSamples(metric, v, step);
    if ground(v.observer).Some? && ground(v.target).Some? {
      forall k: nat, p: Sample | 0 < k < n && OnPath(p, v.observer, v.target, 0.0, seg, n, k)
        ensures Blocks(ground, v, s, k) <==> !Below(ground, v, seg, p)
      {
        StepBlocks(metric, ground, v, step, k);
        OnPathUnique(p, s[k], v.observer, v.target, 0.0, seg, n, k);
      }
      assert forall k: nat :: 0 < k < n ==> OnPath(s[k], v.observer, v.target, 0.0, seg, n, k);
    }
  }

  /** Over a shorter segment the target's own elevation decides. */
  lemma VisibleAtOnce(metric: Metric, ground: Ground, v: View, step: real)
    requires step != 0.0 && metric(v.observer, v.target) < 0.000001
    ensures Visible(metric, ground, v, step) <==> ground(v.target).Some?
  {
    OneSegment(metric, v, step);
  }

  function Swapped(v: View): View {
    View(v.target, v.observer, v.targetHeight, v.observerHeight, v.refraction)
  }

  lemma FractionMirrors(n: nat, k: nat)
    requires k <= n && n >= 1
    ensures Fraction(n - k, n) == 1.0 - Fraction(k, n)
  {
    assert Fraction(k, n) * n as real == k as real;
    QuotientIs((n - k) as real, n as real, 1.0 - Fraction(k, n));
  }

  lemma MixMirrors(x: real, y: real, t: real)
    ensures y + (x - y) * (1.0 - t) == x + (y - x) * t
  {
  }

  lemma BetweenMirrors(a: Coord, b: Coord, t: real)
    ensures Between(b, a, 1.0 - t) == Between(a, b, t)
  {
    MixMirrors(a.lon, b.lon, t);
    MixMirrors(a.lat, b.lat, t);
  }

  lemma LengthMirrors(seg: real, t: real)
    ensures seg * (1.0 - t) == seg - seg * t
  {
  }

  lemma StepMirrors(a: Coord, b: Coord, seg: real, n: nat, k: nat)
    requires n >= 1 && k <= n
    ensures var there, back := StepAt(a, b, 0.0, seg, n, k), StepAt(b, a, 0.0, seg, n, n - k);
            back.at == there.at && back.dist == seg - there.dist
  {
    FractionMirrors(n, k);
    BetweenMirrors(a, b, Fraction(k, n));
    LengthMirrors(seg, Fraction(k, n));
  }

  lemma RayMirrors(h0: real, h1: real, total: real, refraction: Option<real>, d: real)
    requires total > 0.0
    ensures Ray(h1, h0, total, refraction, total - d) == Ray(h0, h1, total, refraction, d)
  {
    var t := d / total;
    assert t * total == d;
    QuotientIs(total - d, total, 1.0 - t);
    MixMirrors(h0, h1, t);
    assert (total - d) * (total - (total - d)) == d * (total - d);
  }

  /** The sample `k` from the observer is the sample `n - k` from the target, under the same ray. */
  lemma SampleMirrors(metric: Metric, ground: Ground, v: View, step: real, k: nat)
    requires step != 0.0 && metric(v.observer, v.target) == metric(v.target, v.observer) >= MIN_SEGMENT
    requires k < |Samples(metric, v, step)|
    ensures var s, r := Samples(metric, v, step), Samples(metric, Swapped(v), step);
            && |r| == |s| && r[|s| - 1 - k].at == s[k].at && Total(s) == Total(r) == metric(v.observer, v.target)
            && r[|s| - 1 - k].dist == Total(s) - s[k].dist
  {
    var seg := metric(v.observer, v.target);
    var n := Pieces(seg, step);
    OneSegment(metric, v, step);
    OneSegment(metric, Swapped(v), step);
    StepMirrors(v.observer, v.target, seg, n, k);
  }

  lemma BlockMirrors(metric: Metric, ground: Ground, v: View, step: real, k: nat)
    requires step != 0.0 && metric(v.observer, v.target) == metric(v.target, v.observer) >= MIN_SEGMENT
    requires EndsKnown(ground, Samples(metric, v, step)) && EndsKnown(ground, Samples(metric, Swapped(v), step))
    requires k < |Samples(metric, v, step)|
    ensures var s, r := Samples(metric, v, step), Samples(metric, Swapped(v), step);
            Blocks(ground, v, s, k) <==> Blocks(ground, Swapped(v), r, |s| - 1 - k)
  {
    var s, r := Samples(metric, v, step), Samples(metric, Swapped(v), step);
    SampleMirrors(metric, ground, v, step, k);
    SampleMirrors(metric, ground, v, step, 0);
    SampleMirrors(metric, ground, v, step, |s| - 1);
    RayMirrors(ground(s[0].at).value + v.observerHeight, ground(s[|s| - 1].at).value + v.targetHeight,
               Total(s), v.refraction, s[k].dist);
  }

  lemma VisibleBack(metric: Metric, ground: Ground, v: View, step: real)
    requires step != 0.0 && metric(v.observer, v.target) == metric(v.target, v.observer) >= MIN_SEGMENT
    requires Visible(metric, ground, v, step)
    ensures Visible(metric, ground, Swapped(v), step)
  {
    var s, r := Samples(metric, v, step), Samples(metric, Swapped(v), step);
    SampleMirrors(metric, ground, v, step, 0);
    SampleMirrors(metric, ground, v, step, |s| - 1);
    forall i | 0 < i < |r| - 1
      ensures !Blocks(ground, Swapped(v), r, i)
    {
      BlockMirrors(metric, ground, v, step, |s| - 1 - i);
    }
  }

  /**
   Reciprocity.  With a distance that is the same both ways, swapping the ends together with their
   heights gives the same answer, for every ground, step and refraction.  Only a degenerate segment
   can differ: its single sample is the target, so it is the same exactly when the two ends are
   both known or both unknown.
   */
  lemma Reciprocity(metric: Metric, ground: Ground, v: View, step: real)
    requires step != 0.0 && metric(v.observer, v.target) == metric(v.target, v.observer)
    ensures metric(v.observer, v.target) >= MIN_SEGMENT ==>
              (Visible(metric, ground, v, step) <==> Visible(metric, ground, Swapped(v), step))
    ensures metric(v.observer, v.target) < MIN_SEGMENT ==>
              ((Visible(metric, ground, v, step) <==> Visible(metric, ground, Swapped(v), step))
               <==> (ground(v.observer).Some? <==> ground(v.target).Some?))
  {
    if metric(v.observer, v.target) >= MIN_SEGMENT {
      if Visible(metric, ground, v, step) {
        VisibleBack(metric, ground, v, step);
      }
      if Visible(metric, ground, Swapped(v), step) {
        VisibleBack(metric, ground, Swapped(v), step);
        assert Swapped(Swapped(v)) == v;
      }
    } else {
      OneSegment(metric, v, step);
      OneSegment(metric, Swapped(v), step);
    }
  }

  // ---------------------------------------------------------------- monotonicity

  /** No more bulge: the curvature is switched off, or its radius grows. */
  predicate Flatter(from: Option<real>, to: Option<real>) {
    Curved(to) ==> Curved(from) && from.value <= to.value
  }

  lemma BulgeShrinks(k: real, l: real, total: real, d: real)
    requires 0.0 < k <= l && 0.0 <= d <= total
    ensures 0.0 <= Bulge(l, total, d) <= Bulge(k, total, d)
  {
    var drop, small, large := d * (total - d), 2.0 * (k * EARTH_RADIUS), 2.0 * (l * EARTH_RADIUS);
    assert drop >= 0.0;
    var q := drop / large;
    assert q * large == drop;
    assert q >= 0.0;
    assert q * small <= q * large;
    QuotientBound(q * small, small, drop / small);
    assert (drop / small) * small == drop;
  }

  /** With a positive refraction factor the ray is not flat: strictly between its ends it runs below the chord. */
  lemma BulgeLowers(h0: real, h1: real, k: real, total: real, d: real)
    requires k > 0.0 && 0.0 < d < total
    ensures Ray(h0, h1, total, Some(k), d) < Ray(h0, h1, total, None, d)
  {
    var drop, scale := d * (total - d), 2.0 * (k * EARTH_RADIUS);
    assert (drop / scale) * scale == drop;
    assert drop > 0.0 && scale > 0.0;
  }

  lemma MixRises(h0: real, h1: real, g0: real, g1: real, t: real)
    requires h0 <= g0 && h1 <= g1 && 0.0 <= t <= 1.0
    ensures h0 + (h1 - h0) * t <= g0 + (g1 - g0) * t
  {
    assert (g0 - h0) * (1.0 - t) >= 0.0 && (g1 - h1) * t >= 0.0;
    assert g0 + (g1 - g0) * t - (h0 + (h1 - h0) * t) == (g0 - h0) * (1.0 - t) + (g1 - h1) * t;
  }

  lemma ChordRises(h0: real, h1: real, g0: real, g1: real, total: real, d: real)
    requires h0 <= g0 && h1 <= g1 && total > 0.0 && 0.0 <= d <= total
    ensures Ray(h0, h1, total, None, d) <= Ray(g0, g1, total, None, d)
  {
    QuotientBound(d, total, 1.0);
    MixRises(h0, h1, g0, g1, d / total);
  }

  lemma RayRises(h0: real, h1: real, g0: real, g1: real, total: real, k: Option<real>, l: Option<real>, d: real)
    requires h0 <= g0 && h1 <= g1 && total > 0.0 && 0.0 <= d <= total && Flatter(k, l)
    ensures Ray(h0, h1, total, k, d) <= Ray(g0, g1, total, l, d)
  {
    ChordRises(h0, h1, g0, g1, total, d);
    if Curved(k) {
      BulgeShrinks(k.value, if Curved(l) then l.value else k.value, total, d);
    }
  }

  /** Raising either end or flattening the Earth never hides a visible target. */
  lemma VisibilityMonotone(metric: Metric, ground: Ground, v: View, w: View, step: real)
    requires step > 0.0 && w.observer == v.observer && w.target == v.target
    requires v.observerHeight <= w.observerHeight && v.targetHeight <= w.targetHeight && Flatter(v.refraction, w.refraction)
    requires Visible(metric, ground, v, step)
    ensures Visible(metric, ground, w, step)
  {
    var s := Samples(metric, v, step);
    DensifiedLaws(metric, [v.observer, v.target], step);
    forall i | 0 < i < |s| - 1
      ensures !Blocks(ground, w, s, i)
    {
      assert !Blocks(ground, v, s, i);
      assert s[0].dist < s[i].dist < s[|s| - 1].dist;
      RayRises(ground(s[0].at).value + v.observerHeight, ground(s[|s| - 1].at).value + v.targetHeight,
               ground(s[0].at).value + w.observerHeight, ground(s[|s| - 1].at).value + w.targetHeight,
               Total(s), v.refraction, w.refraction, s[i].dist);
    }
  }

  // ---------------------------------------------------------------- the service

  /** The resolution of the elevation model in metres; 30 when it is missing or zero. */
  function Gsd(resolution: Option<real>): (gsd: real)
    ensures gsd != 0.0
  {
    if resolution.None? || resolution.value == 0.0 then 30.0 else resolution.value
  }

  function ClampedStep(resolution: Option<real>, requested: Option<real>): real {
    var wanted := requested.GetOr(Gsd(resolution));
    if wanted > Gsd(resolution) then Gsd(resolution) else wanted
  }

  /** `TopographyService.line_of_sight`: no elevation model, no sight; else the engine at the clamped step. */
  method ServeLineOfSight(metric: Metric, dem: Option<(Option<real>, Ground)>, v: View, requested: Option<real>)
    returns (r: Report, step: Option<real>, clamped: bool)
    requires requested.Some? ==> requested.value > 0.0
    ensures dem.None? ==> r == Report(false, None, NoDem) && step.None? && !clamped
    ensures dem.Some? ==>
              && step == Some(ClampedStep(dem.value.0, requested)) && step.value != 0.0
              && (clamped <==> requested.Some? && requested.value > Gsd(dem.value.0))
              && (r.visible <==> Visible(metric, dem.value.1, v, step.value))
    ensures dem.Some? ==>
              var gsd := if dem.value.0.Some? && dem.value.0.value != 0.0 then dem.value.0.value else 30.0;
              && step == Some(if requested.Some? && requested.value <= gsd then requested.value else gsd)
              && (clamped <==> requested.Some? && step != requested)
  {
    if dem.None? {
      return Report(false, None, NoDem), None, false;
    }
    var gsd := Gsd(dem.value.0);
    var wanted := requested.GetOr(gsd);
    clamped := false;
    if wanted > gsd {
      wanted := gsd;
      clamped := true;
    }
    r := LineOfSight(metric, dem.value.1, v, wanted);
    step := Some(wanted);
  }

  /**
   Along the clamped path no two neighbouring samples are further apart than the resolution, unless
   the recorded resolution is negative: then, and only then, the one gap of the segment exceeds it.
   */
  lemma SamplesWithinGsd(metric: Metric, v: View, resolution: Option<real>, requested: Option<real>)
    requires metric(v.observer, v.target) >= MIN_SEGMENT
    requires requested.Some? ==> requested.value > 0.0
    ensures var s := Samples(metric, v, ClampedStep(resolution, requested));
            (forall i :: 0 <= i < |s| - 1 ==> s[i + 1].dist - s[i].dist <= Gsd(resolution)) <==> Gsd(resolution) > 0.0
  {
    var step := ClampedStep(resolution, requested);
    var s := Samples(metric, v, step);
    if Gsd(resolution) > 0.0 {
      DensifiedLaws(metric, [v.observer, v.target], step);
    } else {
      OneSegment(metric, v, step);
      var seg := metric(v.observer, v.target);
      var n := Pieces(seg, step);
      StepBounds(seg, n, 0);
      assert s[0].dist == 0.0 && s[1].dist == seg / n as real;
      assert s[1].dist - s[0].dist > 0.0;
    }
  }
}
