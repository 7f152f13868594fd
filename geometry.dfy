/** SDL's integer points and rectangles, SDL2's rectangle intersection, and the
    C integer semantics the drawing code relies on. */
module Geometry {

  datatype Point = Point(x: int, y: int)

  /** SDL_Rect: the pixels x <= px < x + w, y <= py < y + h. */
  datatype Rect = Rect(x: int, y: int, w: int, h: int)

  /** sdl::empty_rect: every field zero. */
  const EmptyRect := Rect(0, 0, 0, 0)

  /** SDL_RectEmpty: the rectangle covers no pixel. */
  predicate NoArea(r: Rect)
  {
    r.w <= 0 || r.h <= 0
  }

  /** The pixel (px, py) lies in r. */
  predicate Contains(r: Rect, px: int, py: int)
  {
    r.x <= px < r.x + r.w && r.y <= py < r.y + r.h
  }

  /** Every pixel of `inner` lies in `outer`, stated on the fields. */
  predicate Inside(inner: Rect, outer: Rect)
  {
    outer.x <= inner.x && inner.x + inner.w <= outer.x + outer.w &&
    outer.y <= inner.y && inner.y + inner.h <= outer.y + outer.h
  }

  function Min(a: int, b: int): int { if a < b then a else b }

  function Max(a: int, b: int): int { if a < b then b else a }

  function Abs(a: int): nat { if a < 0 then -a else a }

  /** r moved by (dx, dy), size unchanged. */
  function Shift(r: Rect, dx: int, dy: int): Rect
  {
    Rect(r.x + dx, r.y + dy, r.w, r.h)
  }

  /** The result of SDL_IntersectRect: its boolean return and the rectangle it writes. */
  datatype Intersection = Intersection(nonEmpty: bool, rect: Rect)

  /** SDL_IntersectRect (SDL2). When either input has no area SDL only zeroes the
      result's width and height; the model also zeroes its position, which no caller
      reads in that case. Otherwise the result spans the larger of the two starts to
      the smaller of the two ends, and the call reports whether that has area. */
  function IntersectRect(a: Rect, b: Rect): (r: Intersection)
    ensures r.nonEmpty ==> !NoArea(r.rect)
    ensures r.nonEmpty ==> Inside(r.rect, a) && Inside(r.rect, b)
    ensures r.nonEmpty ==> Contains(a, r.rect.x, r.rect.y) && Contains(b, r.rect.x, r.rect.y)
    ensures r.nonEmpty ==>
      forall px, py :: Contains(r.rect, px, py) <==> Contains(a, px, py) && Contains(b, px, py)
    ensures !r.nonEmpty ==> forall px, py :: !(Contains(a, px, py) && Contains(b, px, py))
  {
    if NoArea(a) || NoArea(b) then
      Intersection(false, Rect(0, 0, 0, 0))
    else
      var x := Max(a.x, b.x);
      var y := Max(a.y, b.y);
      var overlap := Rect(x, y, Min(a.x + a.w, b.x + b.w) - x, Min(a.y + a.h, b.y + b.h) - y);
      Intersection(!NoArea(overlap), overlap)
  }

  /** sdl::intersect_rects: the overlap, or sdl::empty_rect when there is none. */
  function IntersectRects(a: Rect, b: Rect): (r: Rect)
    ensures forall px, py :: Contains(r, px, py) <==> Contains(a, px, py) && Contains(b, px, py)
    ensures NoArea(r) ==> r == EmptyRect
  {
    var i := IntersectRect(a, b);
    if i.nonEmpty then i.rect else EmptyRect
  }

  /** C's `/` on int for a positive divisor: the quotient truncated toward zero. */
  function CDiv(a: int, b: int): (q: int)
    requires b > 0
    ensures a >= 0 ==> b * q <= a < b * (q + 1)
    ensures a < 0 ==> b * (q - 1) < a <= b * q
  {
    if a >= 0 then a / b else -((-a) / b)
  }

  const TwoTo32: int := 0x1_0000_0000

  /** A C++ `int` (32 bits). */
  type Int32 = v: int | -0x8000_0000 <= v < 0x8000_0000

  /** A C++ `unsigned` (32 bits). */
  type UInt32 = v: int | 0 <= v < 0x1_0000_0000

  /** Conversion of an int to `unsigned` (32 bits): reduction modulo 2^32. */
  function ToUnsigned(v: int): (u: int)
    ensures 0 <= u < TwoTo32
    ensures (u - v) % TwoTo32 == 0
  {
    v % TwoTo32
  }

  /** Conversion of a 32-bit `unsigned` back to `int` (two's complement). */
  function ToSigned(u: int): (s: int)
    requires 0 <= u < TwoTo32
    ensures -0x8000_0000 <= s < 0x8000_0000
    ensures ToUnsigned(s) == u
  {
    if u < 0x8000_0000 then u else u - TwoTo32
  }

  /** An `int` computed in `unsigned` arithmetic and converted back to `int`: the
      32-bit value congruent to v, which is v itself whenever v fits in an `int`. */
  function Wrap32(v: int): (s: Int32)
    ensures (s - v) % TwoTo32 == 0
    ensures -0x8000_0000 <= v < 0x8000_0000 ==> s == v
  {
    ToSigned(ToUnsigned(v))
  }

  /** n steps of k are one step and n - 1 more: the unfolding every grid and run count uses. */
  lemma MulStep(n: int, k: int)
    ensures n * k == k + (n - 1) * k
  {
  }
}
