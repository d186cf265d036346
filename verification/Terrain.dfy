/**
 Polyline densification, elevation profiles and line of sight, over exact reals.  The great-circle
 distance and the raster sample are arbitrary functions; laws that need the distance to be
 symmetric say so.
 */
module Terrain {
  import opened Wrappers

  datatype Coord = Coord(lon: real, lat: real)

  /** A point of the densified line and its distance along it. */
  datatype Sample = Sample(at: Coord, dist: real)

  type Metric = (Coord, Coord) -> real

  /** Elevation under a point, where the raster has data. */
  type Ground = Coord -> Option<real>

  /** Segments shorter than this (metres) are skipped. */
  const MIN_SEGMENT: real := 0.000001
  const EARTH_RADIUS: real := 6371000.0

  // ---------------------------------------------------------------- densification

  function Ceil(x: real): int { if x.Floor as real == x then x.Floor else x.Floor + 1 }

  function Pieces(seg: real, step: real): (n: nat)
    requires step != 0.0
    ensures n >= 1
  {
    var n := Ceil(seg / step);
    if n > 1 then n else 1
  }

  function Between(a: Coord, b: Coord, t: real): Coord {
    Coord(a.lon + (b.lon - a.lon) * t, a.lat + (b.lat - a.lat) * t)
  }

  function Fraction(k: nat, n: nat): real
    requires n >= 1
  {
    k as real / n as real
  }

  /** The point `k` of `n` equal steps along a segment that starts at distance `start`. */
  function StepAt(a: Coord, b: Coord, start: real, seg: real, n: nat, k: nat): Sample
    requires n >= 1
  {
    Sample(Between(a, b, Fraction(k, n)), start + seg * Fraction(k, n))
  }

  function Steps(a: Coord, b: Coord, start: real, seg: real, n: nat, count: nat): (s: seq<Sample>)
    requires n >= 1
    ensures |s| == count
  {
    if count == 0 then [] else Steps(a, b, start, seg, n, count - 1) + [StepAt(a, b, start, seg, n, count - 1)]
  }

  lemma {:induction false} StepsAt(a: Coord, b: Coord, start: real, seg: real, n: nat, count: nat, k: nat)
    requires n >= 1 && k < count
    ensures Steps(a, b, start, seg, n, count)[k] == StepAt(a, b, start, seg, n, k)
  {
    if k < count - 1 {
      StepsAt(a, b, start, seg, n, count - 1, k);
    }
  }

  /** The samples before the last point, and the length so far. */
  datatype Path = Path(samples: seq<Sample>, length: real)

  function Walk(metric: Metric, line: seq<Coord>, step: real, i: nat): Path
    requires i < |line| && step != 0.0
  {
    if i == 0 then Path([], 0.0)
    else
      var p, seg := Walk(metric, line, step, i - 1), metric(line[i - 1], line[i]);
      if seg < MIN_SEGMENT then p
      else
        var n := Pieces(seg, step);
        Path(p.samples + Steps(line[i - 1], line[i], p.length, seg, n, n), p.length + seg)
  }

  function Densified(metric: Metric, line: seq<Coord>, step: real): seq<Sample>
    requires line != [] && step != 0.0
  {
    var p := Walk(metric, line, step, |line| - 1);
    p.samples + [Sample(line[|line| - 1], p.length)]
  }

  method AppendSteps(before: seq<Sample>, a: Coord, b: Coord, start: real, seg: real, n: nat) returns (samples: seq<Sample>)
    requires n >= 1
    ensures samples == before + Steps(a, b, start, seg, n, n)
  {
    samples := before;
    for k := 0 to n
      invariant samples == before + Steps(a, b, start, seg, n, k)
    {
      var point := StepAt(a, b, start, seg, n, k);
      assert before + (Steps(a, b, start, seg, n, k) + [point]) == before + Steps(a, b, start, seg, n, k) + [point];
      samples := samples + [point];
    }
  }

  /** `_densify_line`: an empty line and, as soon as a segment is long enough, a zero step raise. */
  method Densify(metric: Metric, line: seq<Coord>, step: real) returns (samples: seq<Sample>)
    requires line != [] && step != 0.0
    ensures samples == Densified(metric, line, step)
  {
    samples := [];
    var length := 0.0;
    for i := 0 to |line| - 1
      invariant Path(samples, length) == Walk(metric, line, step, i)
    {
      var seg := metric(line[i], line[i + 1]);
      if seg < MIN_SEGMENT {
        continue;
      }
      samples := AppendSteps(samples, line[i], line[i + 1], length, seg, Pieces(seg, step));
      length := length + seg;
    }
    samples := samples + [Sample(line[|line| - 1], length)];
  }

  // ---------------------------------------------------------------- laws of densification

  /** The length of the line without its degenerate segments, and how many segments it keeps. */
  function KeptLength(metric: Metric, line: seq<Coord>, i: nat): real
    requires i < |line|
  {
    if i == 0 then 0.0
    else
      var seg := metric(line[i - 1], line[i]);
      KeptLength(metric, line, i - 1) + if seg < MIN_SEGMENT then 0.0 else seg
  }

  function KeptSegments(metric: Metric, line: seq<Coord>, i: nat): (n: nat)
    requires i < |line|
    ensures n <= i
  {
    if i == 0 then 0
    else KeptSegments(metric, line, i - 1) + if metric(line[i - 1], line[i]) < MIN_SEGMENT then 0 else 1
  }

  lemma QuotientBound(x: real, n: real, y: real)
    requires n > 0.0
    ensures x <= n * y <==> x / n <= y
  {
    var q := x / n;
    assert x == q * n;
    if q <= y {
      assert q * n <= y * n;
    } else {
      assert q * n > y * n;
    }
  }

  lemma QuotientIs(x: real, n: real, y: real)
    requires n != 0.0 && x == y * n
    ensures x / n == y
  {
    var q := x / n;
    assert (q - y) * n == 0.0;
  }

  lemma QuotientSum(x: real, y: real, z: real)
    requires z > 0.0
    ensures (x + y) / z == x / z + y / z
  {
    var p, q := x / z, y / z;
    assert x + y == (p + q) * z;
  }

  lemma PiecesFit(seg: real, step: real)
    requires step > 0.0 && seg > 0.0
    ensures var n := Pieces(seg, step);
            seg / step <= n as real < seg / step + 1.0 && seg / n as real <= step
  {
    var n, x := Pieces(seg, step), seg / step;
    assert x > 0.0;
    QuotientBound(seg, step, n as real);
    QuotientBound(seg, n as real, step);
  }

  lemma StepBounds(seg: real, n: nat, k: nat)
    requires seg > 0.0 && k < n
    ensures 0.0 <= seg * Fraction(k, n) < seg
    ensures seg * Fraction(k + 1, n) == seg * Fraction(k, n) + seg / n as real
    ensures k == 0 ==> seg * Fraction(k, n) == 0.0
    ensures k + 1 == n ==> seg * Fraction(k + 1, n) == seg
  {
    var t := Fraction(k, n);
    assert t * n as real == k as real;
    assert 0.0 <= t < 1.0;
    assert Fraction(k + 1, n) == t + 1.0 / n as real;
    if k + 1 == n {
      assert Fraction(n, n) == 1.0;
    }
  }

  function DistAt(samples: seq<Sample>, end: real, i: nat): real
    requires i <= |samples|
  {
    if i < |samples| then samples[i].dist else end
  }

  /** From `start` strictly upwards to `end`, which is not among the samples, and never by more than `step`. */
  ghost predicate Spaced(samples: seq<Sample>, start: real, end: real, step: real) {
    && DistAt(samples, end, 0) == start
    && forall i {:trigger samples[i]} :: 0 <= i < |samples| ==>
         samples[i].dist < DistAt(samples, end, i + 1) <= samples[i].dist + step
  }

  lemma SpacedJoin(a: seq<Sample>, b: seq<Sample>, start: real, middle: real, end: real, step: real)
    requires Spaced(a, start, middle, step) && Spaced(b, middle, end, step)
    ensures Spaced(a + b, start, end, step)
  {
    var c := a + b;
    forall i | 0 <= i < |c|
      ensures c[i].dist < DistAt(c, end, i + 1) <= c[i].dist + step
    {
      if i < |a| {
        assert c[i] == a[i] && DistAt(c, end, i + 1) == DistAt(a, middle, i + 1);
      } else {
        assert c[i] == b[i - |a|] && DistAt(c, end, i + 1) == DistAt(b, end, i - |a| + 1);
      }
    }
  }

  /** The distances of `n` equal steps. */
  ghost predicate Uniform(s: seq<Sample>, start: real, seg: real, n: nat) {
    && n >= 1 && |s| == n
    && forall k: nat :: k < n ==> s[k].dist == start + seg * Fraction(k, n)
  }

  lemma StepsUniform(a: Coord, b: Coord, start: real, seg: real, n: nat)
    requires n >= 1
    ensures Uniform(Steps(a, b, start, seg, n, n), start, seg, n)
  {
    forall k: nat | k < n
      ensures Steps(a, b, start, seg, n, n)[k].dist == start + seg * Fraction(k, n)
    {
      StepsAt(a, b, start, seg, n, n, k);
    }
  }

  lemma UniformGap(s: seq<Sample>, start: real, seg: real, n: nat, step: real, i: nat)
    requires Uniform(s, start, seg, n) && seg > 0.0 && seg / n as real <= step && i < n
    ensures s[i].dist < DistAt(s, start + seg, i + 1) <= s[i].dist + step && (i == 0 ==> s[i].dist == start)
  {
    StepBounds(seg, n, i);
    if i + 1 < n {
      StepBounds(seg, n, i + 1);
    }
  }

  lemma UniformSpaced(s: seq<Sample>, start: real, seg: real, n: nat, step: real)
    requires Uniform(s, start, seg, n) && seg > 0.0 && seg / n as real <= step
    ensures Spaced(s, start, start + seg, step)
  {
    UniformGap(s, start, seg, n, step, 0);
    forall i: nat | i < n
      ensures s[i].dist < DistAt(s, start + seg, i + 1) <= s[i].dist + step
    {
      UniformGap(s, start, seg, n, step, i);
    }
  }

  lemma {:induction false} WalkSpaced(metric: Metric, line: seq<Coord>, step: real, i: nat)
    requires i < |line| && step > 0.0
    ensures var p := Walk(metric, line, step, i);
            Spaced(p.samples, 0.0, p.length, step) && p.length == KeptLength(metric, line, i)
  {
    if i == 0 {
    } else {
      WalkSpaced(metric, line, step, i - 1);
      var seg, p := metric(line[i - 1], line[i]), Walk(metric, line, step, i - 1);
      if seg >= MIN_SEGMENT {
        var n := Pieces(seg, step);
        PiecesFit(seg, step);
        StepsUniform(line[i - 1], line[i], p.length, seg, n);
        UniformSpaced(Steps(line[i - 1], line[i], p.length, seg, n, n), p.length, seg, n, step);
        SpacedJoin(p.samples, Steps(line[i - 1], line[i], p.length, seg, n, n), 0.0, p.length, p.length + seg, step);
      }
    }
  }

  lemma {:induction false} WalkCount(metric: Metric, line: seq<Coord>, step: real, i: nat)
    requires i < |line| && step > 0.0
    ensures var n, total := |Walk(metric, line, step, i).samples| as real, KeptLength(metric, line, i);
            total / step <= n <= KeptSegments(metric, line, i) as real + total / step
  {
    if i == 0 {
    } else {
      WalkCount(metric, line, step, i - 1);
      var seg, length := metric(line[i - 1], line[i]), KeptLength(metric, line, i - 1);
      if seg >= MIN_SEGMENT {
        PiecesFit(seg, step);
        QuotientSum(length, seg, step);
      }
    }
  }

  lemma {:induction false} SpacedIncreases(samples: seq<Sample>, start: real, end: real, step: real, i: nat, j: nat)
    requires Spaced(samples, start, end, step) && i < j <= |samples|
    ensures samples[i].dist < DistAt(samples, end, j)
    decreases j
  {
    if i + 1 < j {
      SpacedIncreases(samples, start, end, step, i, j - 1);
      assert samples[j - 1].dist < DistAt(samples, end, j);
    }
  }

  /**
   For any line and positive step: distances start at 0, increase strictly, never by more than the
   step, and end at the length of the non-degenerate segments; and the number of points is the least
   possible up to one per segment.
   */
  lemma DensifiedLaws(metric: Metric, line: seq<Coord>, step: real)
    requires line != [] && step > 0.0
    ensures var s, total := Densified(metric, line, step), KeptLength(metric, line, |line| - 1);
            && |s| >= 1 && s[0].dist == 0.0 && s[|s| - 1] == Sample(line[|line| - 1], total)
            && (forall i, j :: 0 <= i < j < |s| ==> s[i].dist < s[j].dist)
            && (forall j :: 0 <= j < |s| - 1 ==> s[j + 1].dist - s[j].dist <= step)
            && 1.0 + total / step <= |s| as real <= (1 + KeptSegments(metric, line, |line| - 1)) as real + total / step
  {
    var p := Walk(metric, line, step, |line| - 1);
    var s := Densified(metric, line, step);
    WalkSpaced(metric, line, step, |line| - 1);
    WalkCount(metric, line, step, |line| - 1);
    forall i, j | 0 <= i < j < |s|
      ensures s[i].dist < s[j].dist
    {
      SpacedIncreases(p.samples, 0.0, p.length, step, i, j);
      assert s[i] == p.samples[i] && s[j].dist == DistAt(p.samples, p.length, j);
    }
    forall j | 0 <= j < |s| - 1
      ensures s[j + 1].dist - s[j].dist <= step
    {
      assert s[j] == p.samples[j] && s[j + 1].dist == DistAt(p.samples, p.length, j + 1);
    }
  }

  // ---------------------------------------------------------------- where the samples are

  /** The number of equal steps: the least that are no longer than `step`, and one at least; one if `step` is negative. */
  predicate LeastSteps(seg: real, step: real, n: nat) {
    n >= 1 && if step < 0.0 then n == 1 else seg <= n as real * step && (n > 1 ==> seg > (n - 1) as real * step)
  }

  lemma PiecesLeast(seg: real, step: real)
    requires step != 0.0 && seg > 0.0
    ensures LeastSteps(seg, step, Pieces(seg, step))
  {
    var n := Pieces(seg, step);
    if step > 0.0 {
      PiecesFit(seg, step);
      QuotientBound(seg, step, n as real);
      QuotientBound(seg, step, (n - 1) as real);
    } else {
      var q := seg / step;
      assert q * step == seg;
      assert q < 0.0;
    }
  }

  /** What fits in `m` steps fits in any `n` more than that, less one. */
  lemma Fits(seg: real, step: real, m: nat, n: nat)
    requires step > 0.0
    ensures m < n && seg <= m as real * step ==> seg <= (n - 1) as real * step
  {
    if m < n {
      var more := (n - 1 - m) as real;
      assert (n - 1) as real == m as real + more;
      assert more * step >= 0.0;
      assert (n - 1) as real * step == m as real * step + more * step;
    }
  }

  lemma LeastIsLeast(seg: real, step: real, m: nat, n: nat)
    requires step != 0.0 && LeastSteps(seg, step, m) && LeastSteps(seg, step, n)
    ensures m >= n
  {
    if step > 0.0 {
      Fits(seg, step, m, n);
    }
  }

  /** The sample at `k` of `n` equal steps from `a`, at distance `start`, to `b`, `seg` further on. */
  ghost predicate OnPath(p: Sample, a: Coord, b: Coord, start: real, seg: real, n: nat, k: nat) {
    && (p.at.lon - a.lon) * n as real == (b.lon - a.lon) * k as real
    && (p.at.lat - a.lat) * n as real == (b.lat - a.lat) * k as real
    && (p.dist - start) * n as real == seg * k as real
  }

  lemma Shared(x: real, t: real, n: real, k: real)
    requires t * n == k
    ensures (x * t) * n == x * k
  {
  }

  lemma StepOnPath(a: Coord, b: Coord, start: real, seg: real, n: nat, k: nat)
    requires n >= 1
    ensures OnPath(StepAt(a, b, start, seg, n, k), a, b, start, seg, n, k)
  {
    var t := Fraction(k, n);
    assert t * n as real == k as real;
    Shared(b.lon - a.lon, t, n as real, k as real);
    Shared(b.lat - a.lat, t, n as real, k as real);
    Shared(seg, t, n as real, k as real);
  }

  lemma SameFactor(x: real, y: real, n: real)
    requires n != 0.0 && x * n == y * n
    ensures x == y
  {
    assert (x - y) * n == 0.0;
  }

  lemma OnPathUnique(p: Sample, q: Sample, a: Coord, b: Coord, start: real, seg: real, n: nat, k: nat)
    requires n >= 1 && OnPath(p, a, b, start, seg, n, k) && OnPath(q, a, b, start, seg, n, k)
    ensures p == q
  {
    SameFactor(p.at.lon - a.lon, q.at.lon - a.lon, n as real);
    SameFactor(p.at.lat - a.lat, q.at.lat - a.lat, n as real);
    SameFactor(p.dist - start, q.dist - start, n as real);
  }

  /** The number of samples before segment `j`: one per step of the segments kept. */
  function Offset(metric: Metric, line: seq<Coord>, step: real, j: nat): nat
    requires j < |line| && step != 0.0
  {
    if j == 0 then 0
    else
      var seg := metric(line[j - 1], line[j]);
      Offset(metric, line, step, j - 1) + if seg < MIN_SEGMENT then 0 else Pieces(seg, step)
  }

  lemma {:induction false} WalkGrows(metric: Metric, line: seq<Coord>, step: real, j: nat, i: nat)
    requires j <= i < |line| && step != 0.0
    ensures var p, q := Walk(metric, line, step, j), Walk(metric, line, step, i);
            |p.samples| == Offset(metric, line, step, j) <= |q.samples| && q.samples[..|p.samples|] == p.samples
    decreases i
  {
    if j < i {
      WalkGrows(metric, line, step, j, i - 1);
    } else if j > 0 {
      WalkGrows(metric, line, step, j - 1, j - 1);
    }
  }

  lemma {:induction false} WalkLength(metric: Metric, line: seq<Coord>, step: real, i: nat)
    requires i < |line| && step != 0.0
    ensures Walk(metric, line, step, i).length == KeptLength(metric, line, i)
  {
    if i > 0 {
      WalkLength(metric, line, step, i - 1);
    }
  }

  lemma SegmentSamples(metric: Metric, line: seq<Coord>, step: real, j: nat, k: nat)
    requires j + 1 < |line| && step != 0.0 && metric(line[j], line[j + 1]) >= MIN_SEGMENT
    requires k < Pieces(metric(line[j], line[j + 1]), step)
    ensures var q, i := Walk(metric, line, step, j + 1), Offset(metric, line, step, j) + k;
            var seg := metric(line[j], line[j + 1]);
            i < |q.samples| && OnPath(q.samples[i], line[j], line[j + 1], KeptLength(metric, line, j), seg, Pieces(seg, step), k)
  {
    var seg, p := metric(line[j], line[j + 1]), Walk(metric, line, step, j);
    WalkGrows(metric, line, step, j, j);
    WalkLength(metric, line, step, j);
    var n := Pieces(seg, step);
    StepsAt(line[j], line[j + 1], p.length, seg, n, n, k);
    StepOnPath(line[j], line[j + 1], p.length, seg, n, k);
    assert Walk(metric, line, step, j + 1).samples[|p.samples| + k] == Steps(line[j], line[j + 1], p.length, seg, n, n)[k];
  }

  /**
   Every segment of at least a micrometre is cut into the least number of equal steps within the step
   length, and its samples stand at those steps, on the segment and in distance along the line; shorter
   segments have none; and the last point ends the line.
   */
  lemma DensifiedSamples(metric: Metric, line: seq<Coord>, step: real, j: nat, n: nat, k: nat)
    requires j + 1 < |line| && step != 0.0 && metric(line[j], line[j + 1]) >= 0.000001
    requires LeastSteps(metric(line[j], line[j + 1]), step, n) && k < n
    ensures var s, i := Densified(metric, line, step), Offset(metric, line, step, j) + k;
            && i < Offset(metric, line, step, j + 1) == Offset(metric, line, step, j) + n < |s|
            && OnPath(s[i], line[j], line[j + 1], KeptLength(metric, line, j), metric(line[j], line[j + 1]), n, k)
    ensures |Densified(metric, line, step)| == Offset(metric, line, step, |line| - 1) + 1
  {
    var seg, q, w := metric(line[j], line[j + 1]), Walk(metric, line, step, j + 1), Walk(metric, line, step, |line| - 1);
    PiecesLeast(seg, step);
    LeastIsLeast(seg, step, n, Pieces(seg, step));
    LeastIsLeast(seg, step, Pieces(seg, step), n);
    SegmentSamples(metric, line, step, j, k);
    WalkGrows(metric, line, step, j + 1, |line| - 1);
    WalkGrows(metric, line, step, |line| - 1, |line| - 1);
    assert w.samples[..|q.samples|][Offset(metric, line, step, j) + k] == w.samples[Offset(metric, line, step, j) + k];
  }
}
