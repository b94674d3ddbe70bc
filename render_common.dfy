// Shared rendering helpers (src/ui/render/common.rs): the frame counter
// that drives cache pruning, polyline decimation, the batching of
// triangle strips and the anti-aliased line list. GPU buffers, shaders and
// the clip-space transform are not modelled; the square root the line
// builder needs is passed in.
module RenderCommon {
  import opened Base

  /** Cache entries older than this many frames are pruned. */
  const RETAIN: nat := 1024
  /** Pruning is offered once every this many calls. */
  const INTERVAL: nat := 256

  /** `x.wrapping_add(1)` on a u64. */
  function WrappingIncrement(x: nat): (r: nat)
    requires x <= U64_MAX
    ensures r <= U64_MAX
    ensures r == (x + 1) % U64_LIMIT
  {
    if x == U64_MAX then 0 else x + 1
  }

  /** The call counter after `k` calls from the default tracker. */
  function CounterAfter(k: nat): (r: nat)
    ensures r <= U64_MAX
  {
    k % U64_LIMIT
  }

  /** The counter steps by one wrapping increment per call. */
  lemma CounterAfterStep(k: nat)
    ensures CounterAfter(k + 1) == WrappingIncrement(CounterAfter(k))
  {
  }

  /**
   * Because the interval divides 2^64, the counter's wrap-around does not
   * disturb the cadence: call `k` offers a prune exactly when `k` is a
   * multiple of 256.
   */
  lemma PruneEveryInterval(k: nat)
    ensures CounterAfter(k) % INTERVAL == 0 <==> k % INTERVAL == 0
  {
    var q := k / U64_LIMIT;
    var r := k % U64_LIMIT;
    assert k == q * U64_LIMIT + r;
    assert q * U64_LIMIT == (q * 0x100_0000_0000_0000) * INTERVAL;
    ModOfMultiplePlus(q * 0x100_0000_0000_0000, r);
  }

  lemma ModOfMultiplePlus(a: nat, r: nat)
    ensures (a * INTERVAL + r) % INTERVAL == r % INTERVAL
  {
  }

  /** CacheTracker: the current frame (never 0) and a wrapping call counter. */
  class CacheTracker {
    var frame: nat
    var counter: nat

    ghost predicate Valid()
      reads this
    {
      frame <= U64_MAX && counter <= U64_MAX
    }

    constructor ()
      ensures Valid() && frame == 0 && counter == 0
    {
      frame, counter := 0, 0;
    }

    /**
     * advance: the next frame number, at least 1, and every 256th call the
     * frame below which cached entries may be pruned (RETAIN frames back,
     * saturating at 0).
     */
    method Advance() returns (current: nat, threshold: Option<nat>)
      requires Valid()
      modifies this
      ensures Valid()
      ensures current == frame && 1 <= frame
      ensures old(frame) < U64_MAX ==> frame == old(frame) + 1
      ensures old(frame) == U64_MAX ==> frame == 1
      ensures counter == WrappingIncrement(old(counter))
      ensures threshold.Some? <==> counter % INTERVAL == 0
      ensures threshold.Some? ==> threshold.value == SaturatingSub(frame, RETAIN) && threshold.value < frame
    {
      frame := Max(WrappingIncrement(frame), 1);
      counter := WrappingIncrement(counter);
      current := frame;
      if counter % INTERVAL == 0 {
        threshold := Some(SaturatingSub(frame, RETAIN));
      } else {
        threshold := None;
      }
    }
  }

  type Point = (real, real)

  /** The first bucket index of `b` when `n` points are split into `buckets` buckets. */
  function BucketLo(n: nat, buckets: nat, b: nat): nat
    requires buckets > 0
  {
    (b * n) / buckets
  }

  /** One past the last index of bucket `b`, capped at `n`. */
  function BucketHi(n: nat, buckets: nat, b: nat): nat
    requires buckets > 0
  {
    Min(((b + 1) * n) / buckets, n)
  }

  /** With at least one point per bucket, bucket `b` of the first `buckets` is not empty. */
  lemma BucketNonEmpty(n: nat, buckets: nat, b: nat)
    requires 0 < buckets <= n && b < buckets
    ensures BucketLo(n, buckets, b) < BucketHi(n, buckets, b) <= n
  {
    var start := b * n;
    var lo := start / buckets;
    assert lo * buckets <= start;
    NextProduct(b, n);
    assert (b + 1) * n == start + n;
    assert (lo + 1) * buckets <= start + n by {
      NextProduct(lo, buckets);
    }
    DivLowerBound(start + n, buckets, lo + 1);
    ProductBelow(b, buckets, n);
    assert lo < n by {
      DivUpperBound(start, buckets, n);
    }
  }

  lemma NextProduct(a: nat, m: nat)
    ensures (a + 1) * m == a * m + m
  {
  }

  lemma ProductBelow(b: nat, buckets: nat, n: nat)
    requires b < buckets && 0 < n
    ensures b * n < buckets * n
  {
  }

  lemma DivUpperBound(x: nat, d: nat, n: nat)
    requires d > 0 && x < d * n
    ensures x / d < n
  {
    if x / d >= n {
      ProductAtLeast(x / d, n, d);
    }
  }

  lemma ProductAtLeast(a: nat, n: nat, d: nat)
    requires a >= n
    ensures a * d >= d * n
  {
  }

  lemma DivLowerBound(x: nat, d: nat, q: nat)
    requires d > 0 && q * d <= x
    ensures q <= x / d
  {
    var k := x / d;
    assert x == k * d + x % d && x % d < d;
    NextProduct(k, d);
    LessFromProducts(q, k + 1, d);
  }

  lemma LessFromProducts(a: nat, b: nat, d: nat)
    requires d > 0 && a * d < b * d
    ensures a < b
  {
    if a >= b {
      ProductAtLeast(a, b, d);
      assert false;
    }
  }

  /** The bucket's points lie vertically between the two points kept for it, which come from the bucket. */
  ghost predicate BucketKept(pts: seq<Point>, r: seq<Point>, buckets: nat, b: nat)
    requires 0 < buckets && 2 * b + 1 < |r|
  {
    var lo, hi := BucketLo(|pts|, buckets, b), BucketHi(|pts|, buckets, b);
    lo < hi
    && r[2 * b] in pts[lo..hi] && r[2 * b + 1] in pts[lo..hi]
    && forall k | lo <= k < hi :: MinR(r[2 * b].1, r[2 * b + 1].1) <= pts[k].1 <= MaxR(r[2 * b].1, r[2 * b + 1].1)
  }

  /**
   * The scan of one bucket: the first point of least height and the first
   * point of greatest height.
   */
  method BucketExtremes(pts: seq<Point>, lo: nat, hi: nat) returns (mn: nat, mx: nat)
    requires lo < hi <= |pts|
    ensures lo <= mn < hi && lo <= mx < hi
    ensures forall k | lo <= k < hi :: pts[mn].1 <= pts[k].1 <= pts[mx].1
    ensures forall k | lo <= k < mn :: pts[k].1 > pts[mn].1
    ensures forall k | lo <= k < mx :: pts[k].1 < pts[mx].1
  {
    mn, mx := lo, lo;
    for i := lo to hi
      invariant lo <= mn < hi && lo <= mx < hi && mn <= Max(i, lo) && mx <= Max(i, lo)
      invariant forall k | lo <= k < i :: pts[mn].1 <= pts[k].1 <= pts[mx].1
      invariant forall k | lo <= k < mn :: pts[k].1 > pts[mn].1
      invariant forall k | lo <= k < mx :: pts[k].1 < pts[mx].1
    {
      if pts[i].1 < pts[mn].1 {
        mn := i;
      }
      if pts[i].1 > pts[mx].1 {
        mx := i;
      }
    }
  }

  /**
   * decimate_line: a line of at most `maxPoints` points is returned as it
   * is; a longer one is split into maxPoints / 2 buckets and each bucket
   * contributes its lowest and highest point, in their original order.
   */
  method DecimateLine(pts: seq<Point>, maxPoints: nat) returns (r: seq<Point>)
    ensures |pts| <= maxPoints ==> r == pts
    ensures |r| <= Max(maxPoints, |pts|) && |r| <= |pts|
    ensures |pts| > maxPoints ==> |r| == 2 * (maxPoints / 2) <= maxPoints
    ensures forall i | 0 <= i < |r| :: r[i] in pts
    ensures |pts| > maxPoints && maxPoints >= 2 ==> forall b | 0 <= b < maxPoints / 2 :: BucketKept(pts, r, maxPoints / 2, b)
  {
    if |pts| <= maxPoints {
      return pts;
    }
    var buckets := maxPoints / 2;
    var divisor := Max(buckets, 1);
    r := [];
    for b := 0 to buckets
      invariant |r| == 2 * b
      invariant forall i | 0 <= i < |r| :: r[i] in pts
      invariant forall c | 0 <= c < b :: BucketKept(pts, r, divisor, c)
    {
      BucketNonEmpty(|pts|, divisor, b);
      var lo, hi := BucketLo(|pts|, divisor, b), BucketHi(|pts|, divisor, b);
      var mn, mx := BucketExtremes(pts, lo, hi);
      var r' := r + [pts[Min(mn, mx)], pts[Max(mn, mx)]];
      forall c | 0 <= c < b ensures BucketKept(pts, r', divisor, c) {
        KeptExtend(pts, r, divisor, c, [pts[Min(mn, mx)], pts[Max(mn, mx)]]);
      }
      KeptNew(pts, r, divisor, b, mn, mx);
      r := r';
    }
  }

  /** What was kept for an earlier bucket stays kept when more points follow. */
  lemma KeptExtend(pts: seq<Point>, r: seq<Point>, buckets: nat, c: nat, extra: seq<Point>)
    requires 0 < buckets && 2 * c + 1 < |r| && BucketKept(pts, r, buckets, c)
    ensures BucketKept(pts, r + extra, buckets, c)
  {
    assert (r + extra)[2 * c] == r[2 * c] && (r + extra)[2 * c + 1] == r[2 * c + 1];
  }

  /** The lowest and highest point of a bucket, appended in index order, keep that bucket. */
  lemma KeptNew(pts: seq<Point>, r: seq<Point>, buckets: nat, b: nat, mn: nat, mx: nat)
    requires 0 < buckets && |r| == 2 * b
    requires BucketLo(|pts|, buckets, b) < BucketHi(|pts|, buckets, b) <= |pts|
    requires BucketLo(|pts|, buckets, b) <= mn < BucketHi(|pts|, buckets, b)
    requires BucketLo(|pts|, buckets, b) <= mx < BucketHi(|pts|, buckets, b)
    requires forall k | BucketLo(|pts|, buckets, b) <= k < BucketHi(|pts|, buckets, b) :: pts[mn].1 <= pts[k].1 <= pts[mx].1
    ensures BucketKept(pts, r + [pts[Min(mn, mx)], pts[Max(mn, mx)]], buckets, b)
    ensures pts[Min(mn, mx)] in pts && pts[Max(mn, mx)] in pts
  {
    var lo, hi := BucketLo(|pts|, buckets, b), BucketHi(|pts|, buckets, b);
    var r' := r + [pts[Min(mn, mx)], pts[Max(mn, mx)]];
    assert r'[2 * b] == pts[lo..hi][Min(mn, mx) - lo];
    assert r'[2 * b + 1] == pts[lo..hi][Max(mn, mx) - lo];
  }

  /**
   * append_strip: strips are joined into one by repeating the last vertex
   * so far and the strip's first vertex, which makes degenerate triangles
   * between them; an empty strip changes nothing.
   */
  function AppendStrip<V>(dest: seq<V>, strip: seq<V>): (r: seq<V>)
    ensures strip == [] ==> r == dest
    ensures strip != [] && dest == [] ==> r == strip
    ensures strip != [] && dest != [] ==> |r| == |dest| + 4 + |strip|
    ensures strip != [] && dest != [] ==>
      r[|dest|] == r[|dest| + 1] == dest[|dest| - 1] && r[|dest| + 2] == r[|dest| + 3] == strip[0]
    ensures r[..|dest|] == dest && (strip != [] ==> r[|r| - |strip|..] == strip)
  {
    if strip == [] then dest
    else if dest == [] then strip
    else dest + [dest[|dest| - 1], dest[|dest| - 1], strip[0], strip[0]] + strip
  }

  /** Strips appended one after another each end up whole in the batch, and the first strip is at its head. */
  lemma AppendStripKeepsEarlier<V>(dest: seq<V>, s1: seq<V>, s2: seq<V>)
    ensures AppendStrip(AppendStrip(dest, s1), s2)[..|dest|] == dest
    ensures s1 != [] ==> |AppendStrip(dest, s1)| >= |s1|
  {
    var d1 := AppendStrip(dest, s1);
    assert d1[..|dest|] == dest;
    assert AppendStrip(d1, s2)[..|d1|] == d1;
    assert AppendStrip(d1, s2)[..|dest|] == d1[..|dest|];
  }

  /** A vertex of the anti-aliased line: position, signed distance from the centre line and half stroke width. */
  datatype AaVertex = AaVertex(x: real, y: real, dist: real, half: real)

  /** The length of a segment, by the square root passed in. */
  function SegmentLength(p0: Point, p1: Point, sqrt: real -> real): real
  {
    sqrt((p1.0 - p0.0) * (p1.0 - p0.0) + (p1.1 - p0.1) * (p1.1 - p0.1))
  }

  /** A segment shorter than 1e-4 is skipped. */
  predicate Degenerate(p0: Point, p1: Point, sqrt: real -> real)
  {
    SegmentLength(p0, p1, sqrt) < 0.0001
  }

  /** The two triangles of one segment, pushed out by `outer` on either side. */
  function SegmentVertices(p0: Point, p1: Point, half: real, outer: real, len: real): (r: seq<AaVertex>)
    requires len != 0.0
    ensures |r| == 6
    ensures r[0] == r[3] && r[2] == r[4]
    ensures r[0].dist == r[3].dist == r[5].dist == -outer && r[1].dist == r[2].dist == r[4].dist == outer
    ensures forall i | 0 <= i < 6 :: r[i].half == half
  {
    var (dx, dy) := (p1.0 - p0.0, p1.1 - p0.1);
    var inv := 1.0 / len;
    var (ox, oy) := (-dy * inv * outer, dx * inv * outer);
    [AaVertex(p0.0 - ox, p0.1 - oy, -outer, half), AaVertex(p0.0 + ox, p0.1 + oy, outer, half),
     AaVertex(p1.0 + ox, p1.1 + oy, outer, half), AaVertex(p0.0 - ox, p0.1 - oy, -outer, half),
     AaVertex(p1.0 + ox, p1.1 + oy, outer, half), AaVertex(p1.0 - ox, p1.1 - oy, -outer, half)]
  }

  /** The half stroke width: a stroke is at least 0.1 wide. */
  function HalfStroke(stroke: real): (r: real)
    ensures r >= 0.05
  {
    MaxR(stroke, 0.1) * 0.5
  }

  /** The vertices for the segments among the first `k` points. */
  function AaLine(pts: seq<Point>, k: nat, stroke: real, sqrt: real -> real): (r: seq<AaVertex>)
    requires k <= |pts|
  {
    if k < 2 then []
    else if Degenerate(pts[k - 2], pts[k - 1], sqrt) then AaLine(pts, k - 1, stroke, sqrt)
    else
      AaLine(pts, k - 1, stroke, sqrt)
      + SegmentVertices(pts[k - 2], pts[k - 1], HalfStroke(stroke), HalfStroke(stroke) + 1.0, SegmentLength(pts[k - 2], pts[k - 1], sqrt))
  }

  /** The number of segments among the first `k` points that are drawn. */
  function DrawnSegments(pts: seq<Point>, k: nat, sqrt: real -> real): (r: nat)
    requires k <= |pts|
    ensures r <= k - 1 || k == 0
  {
    if k < 2 then 0
    else DrawnSegments(pts, k - 1, sqrt) + (if Degenerate(pts[k - 2], pts[k - 1], sqrt) then 0 else 1)
  }

  /** Six vertices, two triangles, per drawn segment; nothing for fewer than two points. */
  lemma {:induction false} AaLineLength(pts: seq<Point>, k: nat, stroke: real, sqrt: real -> real)
    requires k <= |pts|
    ensures |AaLine(pts, k, stroke, sqrt)| == 6 * DrawnSegments(pts, k, sqrt)
    ensures |AaLine(pts, k, stroke, sqrt)| <= 6 * (if k < 2 then 0 else k - 1)
  {
    if k >= 2 {
      AaLineLength(pts, k - 1, stroke, sqrt);
    }
  }

  /** Group `q` of six vertices is two triangles sharing their diagonal. */
  ghost predicate QuadAt(r: seq<AaVertex>, q: nat)
  {
    6 * q + 5 < |r| && r[6 * q] == r[6 * q + 3] && r[6 * q + 2] == r[6 * q + 4]
  }

  /** Every group of six vertices is the two triangles of one segment. */
  lemma {:induction false} AaLineQuads(pts: seq<Point>, k: nat, stroke: real, sqrt: real -> real)
    requires k <= |pts|
    ensures forall q | 0 <= q < DrawnSegments(pts, k, sqrt) :: QuadAt(AaLine(pts, k, stroke, sqrt), q)
  {
    AaLineLength(pts, k, stroke, sqrt);
    if k >= 2 {
      AaLineQuads(pts, k - 1, stroke, sqrt);
      AaLineLength(pts, k - 1, stroke, sqrt);
      var rest := AaLine(pts, k - 1, stroke, sqrt);
      var r := AaLine(pts, k, stroke, sqrt);
      var m := DrawnSegments(pts, k - 1, sqrt);
      if !Degenerate(pts[k - 2], pts[k - 1], sqrt) {
        var seg := SegmentVertices(pts[k - 2], pts[k - 1], HalfStroke(stroke), HalfStroke(stroke) + 1.0, SegmentLength(pts[k - 2], pts[k - 1], sqrt));
        assert r == rest + seg;
        forall q | 0 <= q < m ensures QuadAt(r, q) {
          assert QuadAt(rest, q);
          assert r[6 * q] == rest[6 * q] && r[6 * q + 3] == rest[6 * q + 3];
          assert r[6 * q + 2] == rest[6 * q + 2] && r[6 * q + 4] == rest[6 * q + 4];
        }
        assert r[6 * m] == seg[0] && r[6 * m + 3] == seg[3] && r[6 * m + 2] == seg[2] && r[6 * m + 4] == seg[4];
        assert QuadAt(r, m);
      }
    }
  }

  /** build_aa_line_list: one pass over the windows of two points. */
  method BuildAaLineList(pts: seq<Point>, stroke: real, sqrt: real -> real) returns (verts: seq<AaVertex>)
    ensures verts == AaLine(pts, |pts|, stroke, sqrt)
    ensures |verts| == 6 * DrawnSegments(pts, |pts|, sqrt)
    ensures |pts| < 2 ==> verts == []
  {
    AaLineLength(pts, |pts|, stroke, sqrt);
    if |pts| < 2 {
      return [];
    }
    var half := HalfStroke(stroke);
    var outer := half + 1.0;
    verts := [];
    for k := 2 to |pts| + 1
      invariant verts == AaLine(pts, k - 1, stroke, sqrt)
    {
      var len := SegmentLength(pts[k - 2], pts[k - 1], sqrt);
      if len >= 0.0001 {
        verts := verts + SegmentVertices(pts[k - 2], pts[k - 1], half, outer, len);
      }
    }
  }
}
