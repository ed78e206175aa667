/**
 * CoreGraphics rectangles as used by the element resolver.
 *
 * A `Rect` stores origin and size as given; like `CGRect`, every query
 * first standardizes it, so a negative width or height describes the same
 * region as its mirror image.
 */
module Geometry {

  datatype Rect = Rect(x: real, y: real, width: real, height: real)

  function Abs(v: real): real {
    if v < 0.0 then -v else v
  }

  function Min(a: real, b: real): real {
    if a <= b then a else b
  }

  function Max(a: real, b: real): real {
    if a <= b then b else a
  }

  function MinX(r: Rect): real { Min(r.x, r.x + r.width) }
  function MaxX(r: Rect): real { Max(r.x, r.x + r.width) }
  function MinY(r: Rect): real { Min(r.y, r.y + r.height) }
  function MaxY(r: Rect): real { Max(r.y, r.y + r.height) }

  /** `CGRect.width` / `CGRect.height`: the standardized, non-negative extents. */
  function Width(r: Rect): (w: real)
    ensures w >= 0.0
  {
    Abs(r.width)
  }

  function Height(r: Rect): (h: real)
    ensures h >= 0.0
  {
    Abs(r.height)
  }

  function Area(r: Rect): real {
    Width(r) * Height(r)
  }

  /** `CGRect.intersects`: the two regions share interior points. */
  predicate Intersects(a: Rect, b: Rect) {
    Max(MinX(a), MinX(b)) < Min(MaxX(a), MaxX(b)) &&
    Max(MinY(a), MinY(b)) < Min(MaxY(a), MaxY(b))
  }

  /** `CGRect.intersection`, meaningful when `Intersects(a, b)`. */
  function Intersection(a: Rect, b: Rect): Rect {
    var x0 := Max(MinX(a), MinX(b));
    var y0 := Max(MinY(a), MinY(b));
    Rect(x0, y0, Min(MaxX(a), MaxX(b)) - x0, Min(MaxY(a), MaxY(b)) - y0)
  }

  lemma IntersectionExtents(a: Rect, b: Rect)
    requires Intersects(a, b)
    ensures 0.0 < Width(Intersection(a, b)) <= Width(a)
    ensures Width(Intersection(a, b)) <= Width(b)
    ensures 0.0 < Height(Intersection(a, b)) <= Height(a)
    ensures Height(Intersection(a, b)) <= Height(b)
    ensures Width(a) > 0.0 && Height(a) > 0.0
    ensures Width(b) > 0.0 && Height(b) > 0.0
  {
    Standardized(a); Standardized(b); Standardized(Intersection(a, b));
  }

  /** The standardized extents span from the minimum to the maximum coordinate. */
  lemma Standardized(r: Rect)
    ensures Width(r) == MaxX(r) - MinX(r)
    ensures Height(r) == MaxY(r) - MinY(r)
  {
  }

  lemma MulMono(a: real, b: real, c: real, d: real)
    requires 0.0 <= a <= c && 0.0 <= b <= d
    ensures a * b <= c * d
  {
    assert a * b <= c * b;
    assert c * b <= c * d;
  }

  lemma MulPos(a: real, b: real)
    requires 0.0 < a && 0.0 < b
    ensures 0.0 < a * b
  {
  }

  /**
   * The overlap measure the resolver ranks candidates by: the area of the
   * intersection divided by the mean of the two areas, or 0 when the
   * rectangles do not intersect.
   */
  function IntersectionRatio(r1: Rect, r2: Rect): (ratio: real)
    ensures !Intersects(r1, r2) ==> ratio == 0.0
    ensures Intersects(r1, r2) ==>
      Area(r1) + Area(r2) > 0.0 &&
      ratio == Area(Intersection(r1, r2)) / ((Area(r1) + Area(r2)) / 2.0)
  {
    if Intersects(r1, r2) then
      IntersectionExtents(r1, r2);
      MulPos(Width(r1), Height(r1));
      MulPos(Width(r2), Height(r2));
      Area(Intersection(r1, r2)) / ((Area(r1) + Area(r2)) / 2.0)
    else
      0.0
  }

  /** The intersection is the same whichever rectangle comes first. */
  lemma IntersectionSymmetric(a: Rect, b: Rect)
    ensures Intersects(a, b) == Intersects(b, a)
    ensures Area(Intersection(a, b)) == Area(Intersection(b, a))
  {
    assert Intersection(a, b) == Intersection(b, a);
  }

  lemma RatioSymmetric(r1: Rect, r2: Rect)
    ensures IntersectionRatio(r1, r2) == IntersectionRatio(r2, r1)
  {
    IntersectionSymmetric(r1, r2);
    assert Area(r1) + Area(r2) == Area(r2) + Area(r1);
  }

  lemma DivAtMostOne(a: real, m: real)
    requires 0.0 <= a <= m && 0.0 < m
    ensures 0.0 <= a / m <= 1.0
  {
  }

  lemma ProductBounds(wi: real, hi: real, w1: real, h1: real, w2: real, h2: real)
    requires 0.0 < wi <= w1 && wi <= w2
    requires 0.0 < hi <= h1 && hi <= h2
    ensures 0.0 < wi * hi <= w1 * h1
    ensures wi * hi <= w2 * h2
  {
    MulMono(wi, hi, w1, h1);
    MulMono(wi, hi, w2, h2);
    MulPos(wi, hi);
  }

  lemma AreaOfIntersectionBounded(r1: Rect, r2: Rect)
    requires Intersects(r1, r2)
    ensures 0.0 < Area(Intersection(r1, r2)) <= Area(r1)
    ensures Area(Intersection(r1, r2)) <= Area(r2)
  {
    IntersectionExtents(r1, r2);
    AreaBounds(Intersection(r1, r2), r1, r2);
  }

  /** A rectangle no wider and no taller than two others has no larger area than either. */
  lemma AreaBounds(i: Rect, r1: Rect, r2: Rect)
    requires 0.0 < Width(i) <= Width(r1) && Width(i) <= Width(r2)
    requires 0.0 < Height(i) <= Height(r1) && Height(i) <= Height(r2)
    ensures 0.0 < Area(i) <= Area(r1) && Area(i) <= Area(r2)
  {
    var wi, hi, w1, h1, w2, h2 := Width(i), Height(i), Width(r1), Height(r1), Width(r2), Height(r2);
    ProductBounds(wi, hi, w1, h1, w2, h2);
    assert Area(i) == wi * hi && Area(r1) == w1 * h1 && Area(r2) == w2 * h2;
  }

  /** The ratio never exceeds 1 and is never negative. */
  lemma RatioBounds(r1: Rect, r2: Rect)
    ensures 0.0 <= IntersectionRatio(r1, r2) <= 1.0
  {
    if Intersects(r1, r2) {
      AreaOfIntersectionBounded(r1, r2);
      var a := Area(Intersection(r1, r2));
      var mean := (Area(r1) + Area(r2)) / 2.0;
      DivAtMostOne(a, mean);
    }
  }

  /** A rectangle of positive area has ratio exactly 1 with itself. */
  lemma RatioSelf(r: Rect)
    requires Width(r) > 0.0 && Height(r) > 0.0
    ensures IntersectionRatio(r, r) == 1.0
  {
    Standardized(r);
    assert Intersects(r, r);
    assert Intersection(r, r) == Rect(MinX(r), MinY(r), Width(r), Height(r));
    assert Area(Intersection(r, r)) == Area(r);
    MulPos(Width(r), Height(r));
    var a := Area(r);
    assert (a + a) / 2.0 == a;
  }
}
