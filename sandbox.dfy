// The schematic sandbox's object model: placed objects with bounding
// rectangles, the connection points (ports and knees) a wire attaches to,
// and the connector whose segments run from point to point, together with
// the point-to-segment distance used for hit testing wires.

module Sandbox {
  import opened Wrappers

  datatype Point = Point(x: real, y: real)

  /** A bounding rectangle: its corner, width and height. */
  datatype Rect = Rect(x: real, y: real, w: real, h: real)

  function Offset(p: Point, d: Point): Point
  {
    Point(p.x + d.x, p.y + d.y)
  }

  /** The point lies strictly inside the rectangle. */
  predicate Inside(r: Rect, p: Point)
  {
    r.x < p.x < r.x + r.w && r.y < p.y < r.y + r.h
  }

  /** Some rectangle contains the point strictly. */
  predicate Hits(rects: seq<Rect>, p: Point)
  {
    exists i | 0 <= i < |rects| :: Inside(rects[i], p)
  }

  /** A rectangle moved by the whole delta. */
  function ShiftRect(r: Rect, d: Point): Rect
  {
    Rect(r.x + d.x, r.y + d.y, r.w, r.h)
  }

  /** A rectangle moved as translate moves it: dx along both axes. */
  function ShiftRectAsWritten(r: Rect, d: Point): Rect
  {
    Rect(r.x + d.x, r.y + d.x, r.w, r.h)
  }

  function Shifted(rects: seq<Rect>, d: Point): (r: seq<Rect>)
    ensures |r| == |rects| && forall i | 0 <= i < |rects| :: r[i] == ShiftRect(rects[i], d)
  {
    seq(|rects|, i requires 0 <= i < |rects| => ShiftRect(rects[i], d))
  }

  function ShiftedAsWritten(rects: seq<Rect>, d: Point): (r: seq<Rect>)
    ensures |r| == |rects| && forall i | 0 <= i < |rects| :: r[i] == ShiftRectAsWritten(rects[i], d)
  {
    seq(|rects|, i requires 0 <= i < |rects| => ShiftRectAsWritten(rects[i], d))
  }

  /**
   * Translating an object's rectangles by a delta moves its hit region with
   * it: a point hits the moved rectangles exactly when the point moved back
   * hits the original ones.
   */
  lemma TranslateKeepsHits(rects: seq<Rect>, d: Point, p: Point)
    ensures Hits(Shifted(rects, d), Offset(p, d)) <==> Hits(rects, p)
  {
    var moved := Shifted(rects, d);
    if Hits(rects, p) {
      var i :| 0 <= i < |rects| && Inside(rects[i], p);
      assert Inside(moved[i], Offset(p, d));
    }
    if Hits(moved, Offset(p, d)) {
      var i :| 0 <= i < |moved| && Inside(moved[i], Offset(p, d));
      assert Inside(rects[i], p);
    }
  }

  /**
   * As written, translate moves the rectangles by dx vertically too: after
   * a purely vertical move of a 2x2 box the point that followed the object
   * no longer hits it.
   */
  lemma TranslateAsWrittenLosesHits()
    ensures Hits([Rect(0.0, 0.0, 2.0, 2.0)], Point(1.0, 1.0))
    ensures !Hits(ShiftedAsWritten([Rect(0.0, 0.0, 2.0, 2.0)], Point(0.0, 2.0)), Offset(Point(1.0, 1.0), Point(0.0, 2.0)))
  {
    var box := [Rect(0.0, 0.0, 2.0, 2.0)];
    assert Inside(box[0], Point(1.0, 1.0));
  }

  /** s with x appended unless it is already there: a list used as a set. */
  function Adjoin<T(==)>(s: seq<T>, x: T): seq<T>
  {
    if x in s then s else s + [x]
  }

  /** Adjoining adds exactly x, keeps a duplicate-free list duplicate-free and is idempotent. */
  lemma AdjoinSet<T>(s: seq<T>, x: T)
    ensures forall y :: y in Adjoin(s, x) <==> y in s || y == x
    ensures Distinct(s) ==> Distinct(Adjoin(s, x))
    ensures Adjoin(Adjoin(s, x), x) == Adjoin(s, x)
    ensures |s| <= |Adjoin(s, x)| <= |s| + 1
  {
  }

  predicate Distinct<T(==)>(s: seq<T>)
  {
    forall i, j | 0 <= i < j < |s| :: s[i] != s[j]
  }

  /** Python's list.index: the first position holding x. */
  function IndexOf<T(==)>(s: seq<T>, x: T): (i: nat)
    requires x in s
    ensures i < |s| && s[i] == x && x !in s[..i]
  {
    if s[0] == x then 0 else 1 + IndexOf(s[1..], x)
  }

  /** Python's list.remove: drops the first occurrence of x. */
  function RemoveFirst<T(==)>(s: seq<T>, x: T): (r: seq<T>)
    requires x in s
    ensures |r| == |s| - 1
  {
    s[..IndexOf(s, x)] + s[IndexOf(s, x) + 1..]
  }

  /** A position holding x with no x before it is list.index's answer. */
  lemma {:induction false} IndexOfFirst<T>(s: seq<T>, x: T, i: nat)
    requires i < |s| && s[i] == x && x !in s[..i]
    ensures IndexOf(s, x) == i
  {
    if i > 0 {
      assert s[1..][..i - 1] == s[..i][1..];
      IndexOfFirst(s[1..], x, i - 1);
    }
  }

  /** In a list without repeats, list.index finds each element at its own position. */
  lemma DistinctIndex<T>(s: seq<T>, i: nat)
    requires Distinct(s) && i < |s|
    ensures IndexOf(s, s[i]) == i
  {
  }

  // ----- The connector's wire as a list of (start, end) links -----

  /** Each link starts where the previous one ends. */
  predicate Chained<T(==)>(links: seq<(T, T)>)
  {
    forall i | 0 <= i < |links| - 1 :: links[i].1 == links[i + 1].0
  }

  /** split_segment's effect: link i = (c1, c2) becomes (c1, k), (k, c2) in its place. */
  function SplitAt<T>(links: seq<(T, T)>, i: nat, k: T): (r: seq<(T, T)>)
    requires i < |links|
    ensures |r| == |links| + 1
  {
    links[..i] + [(links[i].0, k), (k, links[i].1)] + links[i + 1..]
  }

  /** remove_knee's effect: links i and i+1 become the one link from the start of i to the end of i+1. */
  function MergeAt<T>(links: seq<(T, T)>, i: nat): (r: seq<(T, T)>)
    requires i + 1 < |links|
    ensures |r| == |links| - 1
  {
    links[..i] + [(links[i].0, links[i + 1].1)] + links[i + 2..]
  }

  /** Removing the knee a split inserted gives the wire back. */
  lemma MergeUndoesSplit<T>(links: seq<(T, T)>, i: nat, k: T)
    requires i < |links|
    ensures MergeAt(SplitAt(links, i, k), i) == links
  {
    var s := SplitAt(links, i, k);
    assert s[..i] == links[..i];
    assert s[i + 2..] == links[i + 1..];
    assert links == links[..i] + [links[i]] + links[i + 1..];
  }

  /** Splitting a link keeps a chained wire chained. */
  lemma SplitKeepsChain<T>(links: seq<(T, T)>, i: nat, k: T)
    requires i < |links| && Chained(links)
    ensures Chained(SplitAt(links, i, k))
    ensures SplitAt(links, i, k)[0].0 == links[0].0
    ensures SplitAt(links, i, k)[|links|].1 == links[|links| - 1].1
  {
    var s := SplitAt(links, i, k);
    forall j | 0 <= j < |s| - 1
      ensures s[j].1 == s[j + 1].0
    {
      if j + 1 < i {
        assert s[j] == links[j] && s[j + 1] == links[j + 1];
      } else if j + 1 == i {
        assert s[j] == links[j];
      } else if j > i + 1 {
        assert s[j] == links[j - 1] && s[j + 1] == links[j];
      }
    }
  }

  /** Merging two links keeps a chained wire chained. */
  lemma MergeKeepsChain<T>(links: seq<(T, T)>, i: nat)
    requires i + 1 < |links| && Chained(links)
    ensures Chained(MergeAt(links, i))
    ensures MergeAt(links, i)[0].0 == links[0].0
    ensures MergeAt(links, i)[|links| - 2].1 == links[|links| - 1].1
  {
    var s := MergeAt(links, i);
    forall j | 0 <= j < |s| - 1
      ensures s[j].1 == s[j + 1].0
    {
      if j + 1 < i {
        assert s[j] == links[j] && s[j + 1] == links[j + 1];
      } else if j + 1 == i {
        assert s[j] == links[j] && s[j + 1].0 == links[i].0;
      } else if j == i {
        assert s[j + 1] == links[j + 2];
      } else {
        assert s[j] == links[j + 1] && s[j + 1] == links[j + 2];
      }
    }
  }

  /** A wire from start to active: chained links, the first leaving start and the last reaching active. */
  predicate WireFrom<T(==)>(links: seq<(T, T)>, start: T, active: T)
  {
    Chained(links) &&
    (|links| == 0 ==> active == start) &&
    (|links| > 0 ==> links[0].0 == start && links[|links| - 1].1 == active)
  }

  lemma SplitKeepsWire<T>(links: seq<(T, T)>, i: nat, k: T, start: T, active: T)
    requires i < |links| && WireFrom(links, start, active)
    ensures WireFrom(SplitAt(links, i, k), start, active)
  {
    SplitKeepsChain(links, i, k);
  }

  lemma MergeKeepsWire<T>(links: seq<(T, T)>, i: nat, start: T, active: T)
    requires i + 1 < |links| && WireFrom(links, start, active)
    ensures WireFrom(MergeAt(links, i), start, active)
  {
    MergeKeepsChain(links, i);
  }

  /** add_segment's extension: a link from the active point makes its far end the active point. */
  lemma ExtendKeepsWire<T>(links: seq<(T, T)>, start: T, from: T, to: T)
    requires WireFrom(links, start, from)
    ensures WireFrom(links + [(from, to)], start, to)
  {
    ExtendKeepsChain(links, from, to);
  }

  /** split_segment's steps: restarting link i at k, then inserting (c1, k) before it, is SplitAt. */
  lemma SplitByUpdate<T>(links: seq<(T, T)>, i: nat, k: T)
    requires i < |links|
    ensures var u := links[i := (k, links[i].1)];
            u[..i] + [(links[i].0, k)] + u[i..] == SplitAt(links, i, k)
  {
  }

  /** remove_knee's steps: stretching link i to the end of link i+1, then dropping link i+1, is MergeAt. */
  lemma MergeByUpdate<T>(links: seq<(T, T)>, i: nat)
    requires i + 1 < |links|
    ensures var u := links[i := (links[i].0, links[i + 1].1)];
            u[..i + 1] + u[i + 2..] == MergeAt(links, i)
  {
  }

  /** A link from the wire's last end keeps it chained: add_segment's extension. */
  lemma ExtendKeepsChain<T>(links: seq<(T, T)>, from: T, to: T)
    requires Chained(links) && (|links| > 0 ==> links[|links| - 1].1 == from)
    ensures Chained(links + [(from, to)])
  {
    var s := links + [(from, to)];
    forall j | 0 <= j < |s| - 1
      ensures s[j].1 == s[j + 1].0
    {
      if j + 1 < |links| {
        assert s[j] == links[j] && s[j + 1] == links[j + 1];
      }
    }
  }

  // ----- distance from a point to a wire segment -----

  function SqDist(p: Point, q: Point): real
  {
    (p.x - q.x) * (p.x - q.x) + (p.y - q.y) * (p.y - q.y)
  }

  function Abs(v: real): real
  {
    if v < 0.0 then -v else v
  }

  /** sqrt is the square root on the non-negative reals. */
  ghost predicate IsSqrt(sqrt: real -> real)
  {
    forall v :: 0.0 <= v ==> 0.0 <= sqrt(v) && sqrt(v) * sqrt(v) == v
  }

  /** The point a fraction t of the way from a to b. */
  function Along(a: Point, b: Point, t: real): Point
  {
    Point(a.x + t * (b.x - a.x), a.y + t * (b.y - a.y))
  }

  lemma SqDistNonneg(p: Point, q: Point)
    ensures SqDist(p, q) >= 0.0
  {
  }

  /** r_num: the dot product of c - a with b - a. */
  function RNum(a: Point, b: Point, c: Point): real
  {
    (c.x - a.x) * (b.x - a.x) + (c.y - a.y) * (b.y - a.y)
  }

  /** The numerator of s: the cross product of c - a with b - a. */
  function Cross(a: Point, b: Point, c: Point): real
  {
    (a.y - c.y) * (b.x - a.x) - (a.x - c.x) * (b.y - a.y)
  }

  /**
   * distance((a, b), c): the point of segment ab nearest to c and how far it
   * is, or (c, infinity) when a and b coincide; sqrt is the square root.
   */
  function Distance(a: Point, b: Point, c: Point, sqrt: real -> real): (r: (Point, ExtReal))
    ensures a == b ==> r == (c, PosInf)
  {
    var rDen := SqDist(b, a);
    if rDen > 0.0 then Nearest(a, b, c, RNum(a, b, c) / rDen, Cross(a, b, c) / rDen, rDen, sqrt)
    else (c, PosInf)
  }

  /**
   * The proper-segment case of distance, given t = r_num/r_den and
   * s = cross/r_den: the perpendicular foot when it falls within the
   * segment, else the nearer end.
   */
  function Nearest(a: Point, b: Point, c: Point, t: real, s: real, rDen: real, sqrt: real -> real): (r: (Point, ExtReal))
    ensures r.1.Fin?
  {
    if 0.0 <= t <= 1.0 then (Along(a, b, t), Fin(Abs(s) * sqrt(rDen)))
    else if SqDist(c, a) < SqDist(c, b) then (a, Fin(sqrt(SqDist(c, a))))
    else (b, Fin(sqrt(SqDist(c, b))))
  }

  lemma NearestOnSegment(a: Point, b: Point, c: Point, t: real, s: real, rDen: real, sqrt: real -> real)
    ensures exists u: real :: 0.0 <= u <= 1.0 && Nearest(a, b, c, t, s, rDen, sqrt).0 == Along(a, b, u)
  {
    var p := Nearest(a, b, c, t, s, rDen, sqrt).0;
    if 0.0 <= t <= 1.0 {
      assert p == Along(a, b, t);
    } else if p == a {
      assert p == Along(a, b, 0.0);
    } else {
      assert p == Along(a, b, 1.0);
    }
  }

  /** The point distance returns for a proper segment lies on the segment. */
  lemma DistanceOnSegment(a: Point, b: Point, c: Point, sqrt: real -> real)
    requires SqDist(b, a) > 0.0
    ensures exists t: real :: 0.0 <= t <= 1.0 && Distance(a, b, c, sqrt).0 == Along(a, b, t)
  {
    NearestOnSegment(a, b, c, RNum(a, b, c) / SqDist(b, a), Cross(a, b, c) / SqDist(b, a), SqDist(b, a), sqrt);
  }

  /**
   * The perpendicular foot: when t*r_den = r_num and s*r_den is the cross
   * product, the squared distance from c to a + t(b - a) is s*s*r_den, the
   * square of the source's |s| * sqrt(r_den).
   */
  lemma PerpendicularSquare(a: Point, b: Point, c: Point, t: real, s: real)
    requires SqDist(b, a) > 0.0 && t * SqDist(b, a) == RNum(a, b, c) && s * SqDist(b, a) == Cross(a, b, c)
    ensures s * s * SqDist(b, a) == SqDist(c, Along(a, b, t))
  {
    FootSquare(c.x - a.x, c.y - a.y, b.x - a.x, b.y - a.y, SqDist(b, a), t, s);
  }

  /**
   * PerpendicularSquare in coordinates: u = c - a, v = b - a, t*|v|^2 = u.v
   * and s*|v|^2 = u x v.
   */
  lemma FootSquare(ux: real, uy: real, vx: real, vy: real, d: real, t: real, s: real)
    requires d == vx * vx + vy * vy && d > 0.0
    requires t * d == ux * vx + uy * vy
    requires s * d == -uy * vx + ux * vy
    ensures s * s * d == (ux - t * vx) * (ux - t * vx) + (uy - t * vy) * (uy - t * vy)
  {
    var n, x, q := ux * vx + uy * vy, -uy * vx + ux * vy, ux * ux + uy * uy;
    Lagrange(ux, uy, vx, vy);
    Expand(ux, uy, vx, vy, t);
    assert t * t * d == t * n;
    assert s * s * d * d == x * x;
    assert (q - t * n) * d == (s * s * d) * d;
    CancelFactor(q - t * n, s * s * d, d);
  }

  /** Lagrange's identity in the plane: (u.v)^2 + (u x v)^2 == |u|^2 |v|^2. */
  lemma Lagrange(ux: real, uy: real, vx: real, vy: real)
    ensures (ux * vx + uy * vy) * (ux * vx + uy * vy) + (-uy * vx + ux * vy) * (-uy * vx + ux * vy)
            == (ux * ux + uy * uy) * (vx * vx + vy * vy)
  {
  }

  /** |u - t v|^2 expanded. */
  lemma Expand(ux: real, uy: real, vx: real, vy: real, t: real)
    ensures (ux - t * vx) * (ux - t * vx) + (uy - t * vy) * (uy - t * vy)
            == (ux * ux + uy * uy) - 2.0 * t * (ux * vx + uy * vy) + t * t * (vx * vx + vy * vy)
  {
  }

  lemma CancelFactor(p: real, q: real, d: real)
    requires d != 0.0 && p * d == q * d
    ensures p == q
  {
    assert (p - q) * d == 0.0;
  }

  /** A nonnegative factor times a square root squares to the factor squared times the radicand. */
  lemma ScaledRoot(k: real, q: real, d: real)
    requires 0.0 <= q && q * q == d
    ensures 0.0 <= Abs(k) * q && (Abs(k) * q) * (Abs(k) * q) == k * k * d
  {
    assert Abs(k) * Abs(k) == k * k;
  }

  lemma NearestIsEuclidean(a: Point, b: Point, c: Point, t: real, s: real, rDen: real, sqrt: real -> real)
    requires IsSqrt(sqrt) && 0.0 <= rDen
    requires 0.0 <= t <= 1.0 ==> s * s * rDen == SqDist(c, Along(a, b, t))
    ensures var r := Nearest(a, b, c, t, s, rDen, sqrt);
            0.0 <= r.1.r && r.1.r * r.1.r == SqDist(c, r.0)
  {
    if 0.0 <= t <= 1.0 {
      ScaledRoot(s, sqrt(rDen), rDen);
    } else {
      SqDistNonneg(c, a);
      SqDistNonneg(c, b);
    }
  }

  /** With a true square root, distance's length is the Euclidean distance from c to the returned point. */
  lemma DistanceIsEuclidean(a: Point, b: Point, c: Point, sqrt: real -> real)
    requires IsSqrt(sqrt) && SqDist(b, a) > 0.0
    ensures var r := Distance(a, b, c, sqrt);
            r.1.Fin? && 0.0 <= r.1.r && r.1.r * r.1.r == SqDist(c, r.0)
  {
    PerpendicularSquare(a, b, c, RNum(a, b, c) / SqDist(b, a), Cross(a, b, c) / SqDist(b, a));
    NearestIsEuclidean(a, b, c, RNum(a, b, c) / SqDist(b, a), Cross(a, b, c) / SqDist(b, a), SqDist(b, a), sqrt);
  }

  // ----- schematic objects -----

  const PortRadius: int := 3
  const PortHitMargin: int := 10

  /** The class-wide zorder counter every new schematic object draws from. */
  class ZOrder {
    var next: int

    constructor ()
      ensures next == 0
    {
      next := 0;
    }
  }

  /** The placement state every schematic object carries. */
  class SchematicObject {
    var position: Point
    var rotation: real
    var horFlip: bool
    var verFlip: bool
    var scale: real
    var selected: bool
    var center: Point
    var hover: bool
    var boundingRects: seq<Rect>
    const zorder: int

    /** A new object sits at the origin with one empty rectangle and takes the next zorder. */
    constructor (counter: ZOrder)
      modifies counter
      ensures position == Point(0.0, 0.0) && center == Point(0.0, 0.0) && rotation == 0.0 && scale == 1.0
      ensures !horFlip && !verFlip && !selected && !hover
      ensures boundingRects == [Rect(0.0, 0.0, 0.0, 0.0)]
      ensures zorder == old(counter.next) && counter.next == old(counter.next) + 1
    {
      position, rotation, horFlip, verFlip := Point(0.0, 0.0), 0.0, false, false;
      scale, selected, center, hover := 1.0, false, Point(0.0, 0.0), false;
      boundingRects := [Rect(0.0, 0.0, 0.0, 0.0)];
      zorder := counter.next;
      counter.next := counter.next + 1;
    }

    /**
     * translate as written: the position and the center move by delta, but each
     * bounding rectangle moves by dx along both axes.
     */
    method Translate(delta: Point)
      modifies this`position, this`boundingRects, this`center
      ensures position == Offset(old(position), delta) && center == Offset(old(center), delta)
      ensures boundingRects == ShiftedAsWritten(old(boundingRects), delta)
    {
      position := Offset(position, delta);
      var i := 0;
      while i < |boundingRects|
        invariant 0 <= i <= |boundingRects| == |old(boundingRects)|
        invariant position == Offset(old(position), delta) && center == old(center)
        invariant forall j | 0 <= j < i :: boundingRects[j] == ShiftRectAsWritten(old(boundingRects)[j], delta)
        invariant forall j | i <= j < |boundingRects| :: boundingRects[j] == old(boundingRects)[j]
      {
        boundingRects := boundingRects[i := ShiftRectAsWritten(boundingRects[i], delta)];
        i := i + 1;
      }
      center := Offset(center, delta);
    }

    /** translate as evidently intended: position, every bounding rectangle and center move by delta. */
    method TranslateIntended(delta: Point)
      modifies this`position, this`boundingRects, this`center
      ensures position == Offset(old(position), delta) && center == Offset(old(center), delta)
      ensures boundingRects == Shifted(old(boundingRects), delta)
    {
      position := Offset(position, delta);
      var i := 0;
      while i < |boundingRects|
        invariant 0 <= i <= |boundingRects| == |old(boundingRects)|
        invariant position == Offset(old(position), delta) && center == old(center)
        invariant forall j | 0 <= j < i :: boundingRects[j] == ShiftRect(old(boundingRects)[j], delta)
        invariant forall j | i <= j < |boundingRects| :: boundingRects[j] == old(boundingRects)[j]
      {
        boundingRects := boundingRects[i := ShiftRect(boundingRects[i], delta)];
        i := i + 1;
      }
      center := Offset(center, delta);
    }

    method Rotate(angle: real)
      modifies this`rotation
      ensures rotation == old(rotation) + angle
    {
      rotation := rotation + angle;
    }

    method FlipHorizontal()
      modifies this`horFlip
      ensures horFlip == !old(horFlip)
    {
      horFlip := !horFlip;
    }

    method FlipVertical()
      modifies this`verFlip
      ensures verFlip == !old(verFlip)
    {
      verFlip := !verFlip;
    }

    /** hittest: whether the point lies strictly inside one of the bounding rectangles. */
    method HitTest(p: Point) returns (hit: bool)
      ensures hit <==> Hits(boundingRects, p)
    {
      hit := false;
      var i := 0;
      while i < |boundingRects|
        invariant 0 <= i <= |boundingRects|
        invariant forall j | 0 <= j < i :: !Inside(boundingRects[j], p)
      {
        if Inside(boundingRects[i], p) {
          hit := true;
          break;
        }
        i := i + 1;
      }
    }
  }

  /** What a connection point is: a block's port, or a knee on a wire. */
  datatype PointKind = PortPoint(index: int, isGround: bool) | Knee

  /** A point a connector attaches to, with the connectors attached to it. */
  class ConnectionPoint {
    const kind: PointKind
    const shape: SchematicObject
    const radius: int
    const hitMargin: int
    var connectors: seq<Connector>
    var connected: bool

    /** Port(block, index, position, is_ground): no connectors yet; only the position is placed. */
    constructor Port(counter: ZOrder, index: int, position: Point, isGround: bool)
      modifies counter
      ensures kind == PortPoint(index, isGround) && connectors == [] && !connected
      ensures radius == PortRadius && hitMargin == PortHitMargin
      ensures fresh(shape) && shape.position == position && shape.center == Point(0.0, 0.0)
      ensures shape.zorder == old(counter.next) && counter.next == old(counter.next) + 1
    {
      kind := PortPoint(index, isGround);
      var sh := new SchematicObject(counter);
      sh.position := position;
      shape := sh;
      radius, hitMargin := PortRadius, PortHitMargin;
      connectors, connected := [], false;
    }

    /** KneePoint(connector, position): attached to its connector, placed and centred at position. */
    constructor KneePoint(counter: ZOrder, connector: Connector, position: Point)
      modifies counter
      ensures kind == Knee && connectors == [connector] && !connected
      ensures radius == PortRadius && hitMargin == PortHitMargin
      ensures fresh(shape) && shape.position == position && shape.center == position
      ensures shape.zorder == old(counter.next) && counter.next == old(counter.next) + 1
    {
      kind := Knee;
      var sh := new SchematicObject(counter);
      sh.position, sh.center := position, position;
      shape := sh;
      radius, hitMargin := PortRadius, PortHitMargin;
      connectors, connected := [connector], false;
    }

    /** add_connector records the connector unless it is already there. */
    method AddConnector(connector: Connector)
      modifies this`connectors
      ensures connectors == Adjoin(old(connectors), connector)
    {
      if connector !in connectors {
        connectors := connectors + [connector];
      }
    }
  }

  /** One straight piece of a connector, from connection1 to connection2. */
  class Segment {
    const shape: SchematicObject
    const connector: Connector
    var connection1: ConnectionPoint
    var connection2: ConnectionPoint

    constructor (counter: ZOrder, connector: Connector, connection1: ConnectionPoint, connection2: ConnectionPoint)
      modifies counter
      ensures this.connector == connector && this.connection1 == connection1 && this.connection2 == connection2
      ensures fresh(shape) && shape.zorder == old(counter.next) && counter.next == old(counter.next) + 1
    {
      shape := new SchematicObject(counter);
      this.connector := connector;
      this.connection1 := connection1;
      this.connection2 := connection2;
    }
  }

  /** The (connection1, connection2) pairs of a list of segments. */
  ghost function Links(segs: seq<Segment>): (r: seq<(ConnectionPoint, ConnectionPoint)>)
    reads segs
    ensures |r| == |segs|
    ensures forall j | 0 <= j < |segs| :: r[j] == (segs[j].connection1, segs[j].connection2)
  {
    seq(|segs|, j reads segs requires 0 <= j < |segs| => (segs[j].connection1, segs[j].connection2))
  }

  /** The end points of a list of links, in order. */
  function Ends<T>(links: seq<(T, T)>): (r: seq<T>)
    ensures |r| == |links| && forall j | 0 <= j < |links| :: r[j] == links[j].1
  {
    seq(|links|, j requires 0 <= j < |links| => links[j].1)
  }

  lemma LinksInsert(s: seq<Segment>, i: nat, x: Segment)
    requires i <= |s|
    ensures Links(s[..i] + [x] + s[i..]) == Links(s)[..i] + [(x.connection1, x.connection2)] + Links(s)[i..]
  {
    var t := s[..i] + [x] + s[i..];
    assert forall j | i < j < |t| :: t[j] == s[j - 1];
  }

  lemma LinksDrop(s: seq<Segment>, i: nat)
    requires i < |s|
    ensures Links(s[..i] + s[i + 1..]) == Links(s)[..i] + Links(s)[i + 1..]
  {
    var t := s[..i] + s[i + 1..];
    assert forall j | i <= j < |t| :: t[j] == s[j + 1];
  }

  /** In a list without repeats, list.remove(s[i]) drops position i. */
  lemma RemoveAt<T>(s: seq<T>, i: nat)
    requires Distinct(s) && i < |s|
    ensures RemoveFirst(s, s[i]) == s[..i] + s[i + 1..]
  {
    DistinctIndex(s, i);
  }

  /** Dropping a position from a list without repeats leaves none. */
  lemma DistinctDrop<T>(s: seq<T>, i: nat)
    requires Distinct(s) && i < |s|
    ensures Distinct(s[..i] + s[i + 1..])
  {
    var t := s[..i] + s[i + 1..];
    forall p, q | 0 <= p < q < |t|
      ensures t[p] != t[q]
    {
      assert t[p] == s[if p < i then p else p + 1];
      assert t[q] == s[if q < i then q else q + 1];
    }
  }

  lemma DistinctInsert<T>(s: seq<T>, i: nat, x: T)
    requires Distinct(s) && x !in s && i <= |s|
    ensures Distinct(s[..i] + [x] + s[i..])
  {
    var t := s[..i] + [x] + s[i..];
    forall p, q | 0 <= p < q < |t|
      ensures t[p] != t[q]
    {
      if p != i && q != i {
        assert t[p] == s[if p < i then p else p - 1];
        assert t[q] == s[if q < i then q else q - 1];
      }
    }
  }

  /**
   * The position of the first link ending at k, or the number of links when
   * none does: where remove_knee's search stops.
   */
  function EndingAt<T(==)>(links: seq<(T, T)>, k: T): (i: nat)
    ensures i <= |links|
    ensures i < |links| ==> links[i].1 == k && forall j | 0 <= j < i :: links[j].1 != k
    ensures i == |links| ==> forall j | 0 <= j < |links| :: links[j].1 != k
  {
    var ends := Ends(links);
    if k in ends then IndexOf(ends, k) else |links|
  }

  /** A wire: its segments from the start point through knees to the active point, and the ports it joins. */
  class Connector {
    const shape: SchematicObject
    const startConnectionPoint: ConnectionPoint
    var start: Point
    var end: Point
    var partial: bool
    var knees: seq<ConnectionPoint>
    var ports: seq<ConnectionPoint>
    var endConnectionPoint: ConnectionPoint?
    var segments: seq<Segment>
    var activeConnection: ConnectionPoint

    /**
     * The segments run from the start point to the active point, each
     * starting where the previous one ends.
     */
    ghost predicate Wired()
      reads this`segments, this`activeConnection, segments
    {
      WireFrom(Links(segments), startConnectionPoint, activeConnection)
    }

    /** Connector(connection): a partial wire at the connection's center, attached to it. */
    constructor (counter: ZOrder, connection: ConnectionPoint)
      modifies counter, connection`connectors
      ensures start == old(connection.shape.center) && end == start && partial
      ensures knees == [] && ports == [] && endConnectionPoint == null && segments == []
      ensures startConnectionPoint == connection && activeConnection == connection
      ensures connection.connectors == Adjoin(old(connection.connectors), this)
      ensures fresh(shape) && shape.zorder == old(counter.next) && counter.next == old(counter.next) + 1
      ensures Wired()
    {
      shape := new SchematicObject(counter);
      start := connection.shape.center;
      end := start;
      partial := true;
      knees, ports, endConnectionPoint := [], [], null;
      startConnectionPoint := connection;
      segments := [];
      activeConnection := connection;
      new;
      connection.AddConnector(this);
    }

    /** add_port: a port not yet joined is recorded, gets this connector and becomes connected. */
    method AddPort(port: ConnectionPoint)
      modifies this`ports, port`connectors, port`connected
      ensures ports == Adjoin(old(ports), port)
      ensures port !in old(ports) ==> port.connectors == Adjoin(old(port.connectors), this) && port.connected
      ensures port in old(ports) ==> port.connectors == old(port.connectors) && port.connected == old(port.connected)
    {
      if port !in ports {
        ports := ports + [port];
        port.AddConnector(this);
        port.connected := true;
      }
    }

    /** add_knee: a knee not yet on the wire is recorded, gets this connector and becomes connected. */
    method AddKnee(knee: ConnectionPoint)
      modifies this`knees, knee`connectors, knee`connected
      ensures knees == Adjoin(old(knees), knee)
      ensures knee !in old(knees) ==> knee.connectors == Adjoin(old(knee.connectors), this) && knee.connected
      ensures knee in old(knees) ==> knee.connectors == old(knee.connectors) && knee.connected == old(knee.connected)
    {
      if knee !in knees {
        knees := knees + [knee];
        knee.AddConnector(this);
        knee.connected := true;
      }
    }

    /**
     * add_segment: one new segment from the active point to the connection
     * is appended, a knee or port is recorded, the connection gets this
     * connector, and it becomes the active point.
     */
    method AddSegment(counter: ZOrder, connection: ConnectionPoint)
      modifies counter, this`segments, this`knees, this`ports, this`activeConnection
      modifies connection`connectors, connection`connected
      ensures |segments| == |old(segments)| + 1 && segments[..|old(segments)|] == old(segments)
      ensures var sg := segments[|old(segments)|];
              fresh(sg) && sg.connector == this && sg.connection1 == old(activeConnection) && sg.connection2 == connection
      ensures counter.next == old(counter.next) + 1 && segments[|old(segments)|].shape.zorder == old(counter.next)
      ensures Links(segments) == old(Links(segments)) + [(old(activeConnection), connection)]
      ensures activeConnection == connection
      ensures connection.kind.Knee? ==> knees == Adjoin(old(knees), connection) && ports == old(ports)
      ensures connection.kind.PortPoint? ==> ports == Adjoin(old(ports), connection) && knees == old(knees)
      ensures connection.connectors == Adjoin(old(connection.connectors), this)
      ensures connection.connected == (old(connection.connected) || connection !in (if connection.kind.Knee? then old(knees) else old(ports)))
      ensures old(Wired()) ==> Wired()
    {
      Extend(counter, connection);
      ghost var links := Links(segments);
      Attach(connection);
      assert Links(segments) == links;
    }

    /** The segment half of add_segment: the new segment is appended and the connection becomes active. */
    method Extend(counter: ZOrder, connection: ConnectionPoint)
      modifies counter, this`segments, this`activeConnection
      ensures |segments| == |old(segments)| + 1 && segments[..|old(segments)|] == old(segments)
      ensures var sg := segments[|old(segments)|];
              fresh(sg) && sg.connector == this && sg.connection1 == old(activeConnection) && sg.connection2 == connection
      ensures counter.next == old(counter.next) + 1 && segments[|old(segments)|].shape.zorder == old(counter.next)
      ensures Links(segments) == old(Links(segments)) + [(old(activeConnection), connection)]
      ensures activeConnection == connection
      ensures old(Wired()) ==> Wired()
    {
      ghost var links := Links(segments);
      ghost var from := activeConnection;
      ghost var wired := Wired();
      var segment := new Segment(counter, this, activeConnection, connection);
      segments := segments + [segment];
      activeConnection := connection;
      assert Links(segments) == links + [(from, connection)];
      if wired {
        ExtendKeepsWire(links, startConnectionPoint, from, connection);
      }
    }

    /** The point half of add_segment: a knee or port is recorded and the connection gets this connector. */
    method Attach(connection: ConnectionPoint)
      modifies this`knees, this`ports, connection`connectors, connection`connected
      ensures connection.kind.Knee? ==> knees == Adjoin(old(knees), connection) && ports == old(ports)
      ensures connection.kind.PortPoint? ==> ports == Adjoin(old(ports), connection) && knees == old(knees)
      ensures connection.connectors == Adjoin(old(connection.connectors), this)
      ensures connection.connected == (old(connection.connected) || connection !in (if connection.kind.Knee? then old(knees) else old(ports)))
    {
      if connection.kind.Knee? {
        AddKnee(connection);
      } else {
        AddPort(connection);
      }
      connection.AddConnector(this);
    }

    /**
     * split_segment: when the segment is on the wire, a new segment from its
     * first point to the connection goes in front of it, it now starts at the
     * connection, and the connection is recorded as a knee that has this
     * connector. Otherwise nothing changes.
     */
    method SplitSegment(counter: ZOrder, segment: Segment, connection: ConnectionPoint)
      modifies counter, this`segments, segment`connection1, this`knees, connection`connectors, connection`connected
      ensures segment !in old(segments) ==>
                segments == old(segments) && knees == old(knees) && counter.next == old(counter.next) &&
                unchanged(segment`connection1, connection`connectors, connection`connected)
      ensures segment in old(segments) ==>
                var i := IndexOf(old(segments), segment);
                |segments| == |old(segments)| + 1 &&
                segments == old(segments)[..i] + [segments[i]] + old(segments)[i..] &&
                fresh(segments[i]) && segments[i].connector == this &&
                segments[i].connection1 == old(segment.connection1) && segments[i].connection2 == connection &&
                segment.connection1 == connection &&
                counter.next == old(counter.next) + 1 && segments[i].shape.zorder == old(counter.next) &&
                knees == Adjoin(old(knees), connection) &&
                connection.connected == (old(connection.connected) || connection !in old(knees)) &&
                connection.connectors == Adjoin(old(connection.connectors), this) &&
                (old(Distinct(segments)) ==> Distinct(segments) && Links(segments) == SplitAt(old(Links(segments)), i, connection)) &&
                (old(Distinct(segments) && Wired()) ==> Wired())
    {
      if segment in segments {
        var i := Split(counter, segment, connection);
        ghost var links := Links(segments);
        AddKnee(connection);
        connection.AddConnector(this);
        assert Links(segments) == links;
      }
    }

    /** The segment half of split_segment. */
    method Split(counter: ZOrder, segment: Segment, connection: ConnectionPoint) returns (i: nat)
      requires segment in segments
      modifies counter, this`segments, segment`connection1
      ensures i == IndexOf(old(segments), segment) && |segments| == |old(segments)| + 1
      ensures segments == old(segments)[..i] + [segments[i]] + old(segments)[i..]
      ensures fresh(segments[i]) && segments[i].connector == this
      ensures segments[i].connection1 == old(segment.connection1) && segments[i].connection2 == connection
      ensures segment.connection1 == connection
      ensures counter.next == old(counter.next) + 1 && segments[i].shape.zorder == old(counter.next)
      ensures old(Distinct(segments)) ==> Distinct(segments) && Links(segments) == SplitAt(old(Links(segments)), i, connection)
      ensures old(Distinct(segments) && Wired()) ==> Wired()
    {
      ghost var before := segments;
      ghost var links := Links(segments);
      ghost var distinct := Distinct(segments);
      ghost var wired := Wired();
      var connection1 := segment.connection1;
      var segment2 := new Segment(counter, this, connection1, connection);
      assert Links(segments) == links;
      i := IndexOf(segments, segment);
      Restart(segment, i, connection);
      Insert(i, segment2);
      if distinct {
        SplitByUpdate(links, i, connection);
        DistinctInsert(before, i, segment2);
        if wired {
          SplitKeepsWire(links, i, connection, startConnectionPoint, activeConnection);
        }
      }
    }

    /** list.insert(pos, segment). */
    method Insert(pos: nat, segment: Segment)
      requires pos <= |segments|
      modifies this`segments
      ensures segments == old(segments)[..pos] + [segment] + old(segments)[pos..]
      ensures Links(segments) == old(Links(segments))[..pos] + [(segment.connection1, segment.connection2)] + old(Links(segments))[pos..]
    {
      LinksInsert(segments, pos, segment);
      segments := segments[..pos] + [segment] + segments[pos..];
    }

    /** Segment pos (the given segment) now starts at the connection; the other links stay. */
    method Restart(segment: Segment, pos: nat, connection: ConnectionPoint)
      requires pos < |segments| && segments[pos] == segment
      modifies segment`connection1
      ensures segment.connection1 == connection
      ensures old(Distinct(segments)) ==>
                Links(segments) == old(Links(segments))[pos := (connection, old(Links(segments))[pos].1)]
    {
      ghost var links := Links(segments);
      segment.connection1 := connection;
      if Distinct(segments) {
        ghost var now := Links(segments);
        forall j | 0 <= j < |segments| && j != pos
          ensures now[j] == links[j]
        {
          assert segments[j] != segments[pos];
        }
        assert now == links[pos := (connection, links[pos].1)];
      }
    }

    /**
     * The search in remove_knee: the first segment ending at the knee, or
     * the number of segments when none does.
     */
    method FindEnd(knee: ConnectionPoint) returns (i: nat)
      ensures i == EndingAt(Links(segments), knee)
    {
      ghost var ends := Ends(Links(segments));
      i := 0;
      while i < |segments| && segments[i].connection2 != knee
        invariant i <= |segments|
        invariant knee !in ends[..i]
      {
        i := i + 1;
      }
      if i < |segments| {
        IndexOfFirst(ends, knee, i);
      }
    }

    /**
     * remove_knee: the first segment ending at the knee is stretched to the
     * end of the next one, which is removed, and then the knee is removed
     * from the knees. A knee no segment ends at changes nothing; one that
     * only the last segment ends at raises IndexError before any change; a
     * knee missing from the knees raises ValueError after the segments have
     * changed.
     */
    method RemoveKnee(knee: ConnectionPoint) returns (out: Outcome)
      modifies this`segments, this`knees, segments`connection2
      ensures var i := EndingAt(old(Links(segments)), knee);
              i + 1 >= |old(segments)| ==>
                out == (if i == |old(segments)| then Done else Raised(IndexError)) &&
                segments == old(segments) && knees == old(knees) &&
                forall j | 0 <= j < |segments| :: segments[j].connection2 == old(segments[j].connection2)
      ensures var i := EndingAt(old(Links(segments)), knee);
              i + 1 < |old(segments)| ==>
                segments == RemoveFirst(old(segments), old(segments)[i + 1]) &&
                old(segments)[i].connection2 == old(segments[i + 1].connection2) &&
                (old(Distinct(segments)) ==> Distinct(segments) && Links(segments) == MergeAt(old(Links(segments)), i)) &&
                (old(Distinct(segments) && Wired()) ==> Wired()) &&
                (knee in old(knees) ==> out == Done && knees == RemoveFirst(old(knees), knee)) &&
                (knee !in old(knees) ==> out == Raised(ValueError) && knees == old(knees))
    {
      var i := FindEnd(knee);
      if i == |segments| {
        return Done;
      }
      if i + 1 == |segments| {
        return Raised(IndexError);
      }
      Merge(i);
      if knee !in knees {
        return Raised(ValueError);
      }
      DropKnee(knee);
      out := Done;
    }

    /** knees.remove(knee), for a knee that is there. */
    method DropKnee(knee: ConnectionPoint)
      requires knee in knees
      modifies this`knees
      ensures knees == RemoveFirst(old(knees), knee)
    {
      knees := RemoveFirst(knees, knee);
    }

    /** The segment half of remove_knee: segment i takes the end of segment i+1, which is removed. */
    method Merge(i: nat)
      requires i + 1 < |segments|
      modifies this`segments, segments`connection2
      ensures segments == RemoveFirst(old(segments), old(segments)[i + 1])
      ensures old(segments)[i].connection2 == old(segments[i + 1].connection2)
      ensures old(Distinct(segments)) ==> Distinct(segments) && Links(segments) == MergeAt(old(Links(segments)), i)
      ensures old(Distinct(segments) && Wired()) ==> Wired()
    {
      ghost var links := Links(segments);
      ghost var distinct := Distinct(segments);
      ghost var wired := Wired();
      Stretch(segments[i], i);
      Drop(i + 1);
      if distinct {
        MergeByUpdate(links, i);
        if wired {
          MergeKeepsWire(links, i, startConnectionPoint, activeConnection);
        }
      }
    }

    /** Segment pos now ends where segment pos+1 ends; the other links stay. */
    method Stretch(segment: Segment, pos: nat)
      requires pos + 1 < |segments| && segments[pos] == segment
      modifies segment`connection2
      ensures segment.connection2 == old(segments[pos + 1].connection2)
      ensures old(Distinct(segments)) ==>
                Links(segments) == old(Links(segments))[pos := (old(Links(segments))[pos].0, old(Links(segments))[pos + 1].1)]
    {
      ghost var links := Links(segments);
      segment.connection2 := segments[pos + 1].connection2;
      if Distinct(segments) {
        ghost var now := Links(segments);
        forall j | 0 <= j < |segments| && j != pos
          ensures now[j] == links[j]
        {
          assert segments[j] != segments[pos];
        }
        assert now == links[pos := (links[pos].0, links[pos + 1].1)];
      }
    }

    /** list.remove(segments[pos]). */
    method Drop(pos: nat)
      requires pos < |segments|
      modifies this`segments
      ensures segments == RemoveFirst(old(segments), old(segments)[pos])
      ensures old(Distinct(segments)) ==> Distinct(segments) && Links(segments) == old(Links(segments))[..pos] + old(Links(segments))[pos + 1..]
    {
      if Distinct(segments) {
        RemoveAt(segments, pos);
        DistinctDrop(segments, pos);
        LinksDrop(segments, pos);
      }
      segments := RemoveFirst(segments, segments[pos]);
    }
  }
}
