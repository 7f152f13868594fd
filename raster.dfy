/** The rasterisation behind draw::circle and draw::disc: Horn's midpoint method walks
    one octant of the circle, and an 8-bit mask chooses which of the eight mirror images
    of each step are drawn. */
module Raster {
  import opened Geometry
  import opened Render

  /** The loop variables at one loop head: the error term and the octant point (x, y). */
  datatype Horn = Horn(d: int, x: int, y: int)

  /** The state before the loop, for radius r. */
  function HornStart(r: int): Horn
  {
    Horn(-r, r, 0)
  }

  /** One pass of the loop's update. y advances by exactly one; x never increases and
      drops by at most one, so x - y shrinks and the loop ends. */
  function HornStep(s: Horn): (t: Horn)
    ensures t.y == s.y + 1
    ensures t.x == s.x || t.x == s.x - 1
    ensures t.x - t.y < s.x - s.y
  {
    var d := s.d + 2 * s.y + 1;
    if d > 0 then Horn(d - 2 * s.x + 2, s.x - 1, s.y + 1) else Horn(d, s.x, s.y + 1)
  }

  /** The loop heads at which the body runs, from s until y passes x. */
  function HornRun(s: Horn): seq<Horn>
    decreases if s.y <= s.x then s.x - s.y + 1 else 0
  {
    if s.y > s.x then [] else [s] + HornRun(HornStep(s))
  }

  /** The error term of Horn's method: d == x*x + y*y - r*r - x. */
  predicate HornError(s: Horn, r: int)
  {
    s.d == s.x * s.x + s.y * s.y - r * r - s.x
  }

  /** (x, y) is within Horn's rounding of the circle of radius r: x*x + y*y differs from
      r*r by at most x (in doubled coordinates below). Equivalently, in row y the circle
      of radius sqrt(r*r + 1/4), not r, passes between the pixel centres x - 1/2 and
      x + 1/2. This is not always the column nearest the circle of radius r: for r = 4
      and y = 2 both x = 3 and x = 4 satisfy it, and Horn's run picks 4 although the
      circle crosses row 2 at about 3.46. */
  predicate CloseToCircle(x: int, y: int, r: int)
  {
    (2 * x - 1) * (2 * x - 1) + 4 * y * y <= 4 * r * r + 1 <= (2 * x + 1) * (2 * x + 1) + 4 * y * y
  }

  /** What the loop keeps at every head it executes: besides the error term, the error
      stays within one step of the circle, -2x <= d <= 0. */
  predicate HornBounds(s: Horn)
  {
    s.y <= s.x ==> -2 * s.x <= s.d <= 0
  }

  lemma HornStepKeepsError(s: Horn, r: int)
    requires HornError(s, r)
    ensures HornError(HornStep(s), r)
  {
    var d := s.d + 2 * s.y + 1;
    assert (s.y + 1) * (s.y + 1) == s.y * s.y + 2 * s.y + 1;
    assert (s.x - 1) * (s.x - 1) == s.x * s.x - 2 * s.x + 1;
  }

  lemma HornStepKeepsBounds(s: Horn)
    requires 0 <= s.y <= s.x && HornBounds(s)
    ensures HornBounds(HornStep(s))
  {
  }

  lemma ErrorBoundsGiveClose(s: Horn, r: int)
    requires HornError(s, r) && s.y <= s.x && HornBounds(s)
    ensures CloseToCircle(s.x, s.y, r)
  {
    assert (2 * s.x - 1) * (2 * s.x - 1) == 4 * (s.x * s.x) - 4 * s.x + 1;
    assert (2 * s.x + 1) * (2 * s.x + 1) == 4 * (s.x * s.x) + 4 * s.x + 1;
    assert 4 * s.y * s.y == 4 * (s.y * s.y);
    assert 4 * r * r == 4 * (r * r);
  }

  /** Along the run from s: the i-th head has y == s.y + i, satisfies 0 <= y <= x and
      the error term, lies on the rasterised circle, and follows from the previous head
      by one step; x never exceeds its start; after the last head the loop test fails. */
  lemma {:induction false} HornRunFacts(s: Horn, r: int)
    requires HornError(s, r) && HornBounds(s) && 0 <= s.y
    ensures forall i :: 0 <= i < |HornRun(s)| ==>
      && HornRun(s)[i].y == s.y + i
      && 0 <= HornRun(s)[i].y <= HornRun(s)[i].x <= s.x
      && HornError(HornRun(s)[i], r)
      && CloseToCircle(HornRun(s)[i].x, HornRun(s)[i].y, r)
    ensures forall i :: 0 <= i < |HornRun(s)| - 1 ==> HornRun(s)[i + 1] == HornStep(HornRun(s)[i])
    ensures |HornRun(s)| > 0 ==>
      HornStep(HornRun(s)[|HornRun(s)| - 1]).y > HornStep(HornRun(s)[|HornRun(s)| - 1]).x
    decreases if s.y <= s.x then s.x - s.y + 1 else 0
  {
    if s.y <= s.x {
      var t := HornStep(s);
      HornStepKeepsError(s, r);
      HornStepKeepsBounds(s);
      ErrorBoundsGiveClose(s, r);
      HornRunFacts(t, r);
      var run := HornRun(s);
      assert run == [s] + HornRun(t);
      forall i | 0 <= i < |run|
        ensures run[i].y == s.y + i && 0 <= run[i].y <= run[i].x <= s.x
        ensures HornError(run[i], r) && CloseToCircle(run[i].x, run[i].y, r)
      {
        if i > 0 {
          assert run[i] == HornRun(t)[i - 1];
        }
      }
      forall i | 0 <= i < |run| - 1
        ensures run[i + 1] == HornStep(run[i])
      {
        if i > 0 {
          assert run[i] == HornRun(t)[i - 1];
        } else if |HornRun(t)| > 0 {
          assert run[1] == HornRun(t)[0] == t;
        }
      }
      if |HornRun(t)| == 0 {
        assert t.y > t.x;
      }
    }
  }

  /** The run draw::circle and draw::disc execute for radius r: heads y = 0, 1, ...,
      each close to the circle in the sense of CloseToCircle; none for a negative radius, at least one and
      at most r + 1 for r >= 0. */
  lemma CircleRun(r: int)
    ensures var run := HornRun(HornStart(r));
      && (r < 0 ==> run == [])
      && (r >= 0 ==> 1 <= |run| <= r + 1)
      && (forall i :: 0 <= i < |run| ==>
            run[i].y == i && 0 <= run[i].y <= run[i].x <= r && HornError(run[i], r)
            && CloseToCircle(run[i].x, run[i].y, r))
  {
    var s := HornStart(r);
    assert HornError(s, r);
    HornRunFacts(s, r);
    var run := HornRun(s);
    if r >= 0 {
      assert run[0] == s;
      var last := run[|run| - 1];
      assert last.y == |run| - 1 && last.y <= last.x <= r;
    }
  }

  /** 1 when the mask has bit m set. */
  function Bit(octants: bv8, m: bv8): nat
  {
    if octants & m != 0 then 1 else 0
  }

  /** The number of set bits in the mask. */
  function SetBits(octants: bv8): nat
  {
    Bit(octants, 0x01) + Bit(octants, 0x02) + Bit(octants, 0x04) + Bit(octants, 0x08) +
    Bit(octants, 0x10) + Bit(octants, 0x20) + Bit(octants, 0x40) + Bit(octants, 0x80)
  }

  /** The masks of the octants draw::disc fills with horizontal and with vertical spans. */
  const HorizontalOctants: bv8 := 0x66
  const VerticalOctants: bv8 := 0x99

  lemma SetBitsSplit(octants: bv8)
    ensures SetBits(octants & HorizontalOctants)
      == Bit(octants, 0x04) + Bit(octants, 0x02) + Bit(octants, 0x20) + Bit(octants, 0x40)
    ensures SetBits(octants & VerticalOctants)
      == Bit(octants, 0x08) + Bit(octants, 0x01) + Bit(octants, 0x10) + Bit(octants, 0x80)
    ensures SetBits(octants & HorizontalOctants) + SetBits(octants & VerticalOctants) == SetBits(octants)
  {
  }

  /** p is one of the eight mirror images of (x, y) about (cx, cy). */
  predicate Reflects(p: Point, cx: int, cy: int, x: int, y: int)
  {
    var u, v := p.x - cx, p.y - cy;
    ((u == x || u == -x) && (v == y || v == -y)) || ((u == y || u == -y) && (v == x || v == -x))
  }

  /** [p] when the octant is selected, [] otherwise: one conditional push of the loop. */
  function Pick(on: bool, p: Point): seq<Point>
  {
    if on then [p] else []
  }

  /** The same for one line of draw::disc. */
  function PickLine(on: bool, c: Call): seq<Call>
  {
    if on then [c] else []
  }

  /** The points one pass of draw::circle's loop pushes, in the order the source pushes them. */
  function OctantPoints(cx: int, cy: int, x: int, y: int, octants: bv8): seq<Point>
  {
    Pick(octants & 0x04 != 0, Point(cx + x, cy + y)) +
    Pick(octants & 0x02 != 0, Point(cx + x, cy - y)) +
    Pick(octants & 0x20 != 0, Point(cx - x, cy + y)) +
    Pick(octants & 0x40 != 0, Point(cx - x, cy - y)) +
    Pick(octants & 0x08 != 0, Point(cx + y, cy + x)) +
    Pick(octants & 0x01 != 0, Point(cx + y, cy - x)) +
    Pick(octants & 0x10 != 0, Point(cx - y, cy + x)) +
    Pick(octants & 0x80 != 0, Point(cx - y, cy - x))
  }

  /** Exactly one point per set bit. */
  lemma OctantPointsCount(cx: int, cy: int, x: int, y: int, octants: bv8)
    ensures |OctantPoints(cx, cy, x, y, octants)| == SetBits(octants)
  {
    var a := Pick(octants & 0x04 != 0, Point(cx + x, cy + y)) + Pick(octants & 0x02 != 0, Point(cx + x, cy - y))
      + Pick(octants & 0x20 != 0, Point(cx - x, cy + y)) + Pick(octants & 0x40 != 0, Point(cx - x, cy - y));
    var b := Pick(octants & 0x08 != 0, Point(cx + y, cy + x)) + Pick(octants & 0x01 != 0, Point(cx + y, cy - x))
      + Pick(octants & 0x10 != 0, Point(cx - y, cy + x)) + Pick(octants & 0x80 != 0, Point(cx - y, cy - x));
    assert |a| == Bit(octants, 0x04) + Bit(octants, 0x02) + Bit(octants, 0x20) + Bit(octants, 0x40);
    assert |b| == Bit(octants, 0x08) + Bit(octants, 0x01) + Bit(octants, 0x10) + Bit(octants, 0x80);
    assert |OctantPoints(cx, cy, x, y, octants)| == |a| + |b|;
  }

  /** Every point pushed is a mirror image of (x, y). */
  lemma OctantPointsReflect(cx: int, cy: int, x: int, y: int, octants: bv8)
    ensures forall p :: p in OctantPoints(cx, cy, x, y, octants) ==> Reflects(p, cx, cy, x, y)
  {
    forall p | p in OctantPoints(cx, cy, x, y, octants)
      ensures Reflects(p, cx, cy, x, y)
    {
      assert p in [Point(cx + x, cy + y), Point(cx + x, cy - y), Point(cx - x, cy + y), Point(cx - x, cy - y),
                   Point(cx + y, cy + x), Point(cx + y, cy - x), Point(cx - y, cy + x), Point(cx - y, cy - x)];
    }
  }

  /** All the points pushed along a run. */
  function CirclePoints(cx: int, cy: int, run: seq<Horn>, octants: bv8): seq<Point>
  {
    if run == [] then []
    else OctantPoints(cx, cy, run[0].x, run[0].y, octants) + CirclePoints(cx, cy, run[1..], octants)
  }

  /** Exactly one point per set bit per pass; so a zero mask draws no point. */
  lemma {:induction false} CirclePointsCount(cx: int, cy: int, run: seq<Horn>, octants: bv8)
    ensures |CirclePoints(cx, cy, run, octants)| == |run| * SetBits(octants)
  {
    if run != [] {
      CirclePointsCount(cx, cy, run[1..], octants);
      var here := OctantPoints(cx, cy, run[0].x, run[0].y, octants);
      OctantPointsCount(cx, cy, run[0].x, run[0].y, octants);
      assert |CirclePoints(cx, cy, run, octants)| == |here| + |CirclePoints(cx, cy, run[1..], octants)|;
      MulStep(|run|, SetBits(octants));
    }
  }

  /** p lies on the rasterised circle of radius r about (cx, cy): after folding it into
      the first octant it is close to the circle in the sense of CloseToCircle. */
  predicate OnCircle(p: Point, cx: int, cy: int, r: int)
  {
    var u, v := Abs(p.x - cx), Abs(p.y - cy);
    CloseToCircle(u, v, r) || CloseToCircle(v, u, r)
  }

  lemma {:induction false} PointsOfCloseRun(cx: int, cy: int, run: seq<Horn>, octants: bv8, r: int)
    requires forall i :: 0 <= i < |run| ==> 0 <= run[i].y <= run[i].x && CloseToCircle(run[i].x, run[i].y, r)
    ensures forall p :: p in CirclePoints(cx, cy, run, octants) ==> OnCircle(p, cx, cy, r)
  {
    if run != [] {
      PointsOfCloseRun(cx, cy, run[1..], octants, r);
      var x, y := run[0].x, run[0].y;
      OctantPointsReflect(cx, cy, x, y, octants);
      forall p | p in OctantPoints(cx, cy, x, y, octants)
        ensures OnCircle(p, cx, cy, r)
      {
        assert Reflects(p, cx, cy, x, y);
        var u, v := Abs(p.x - cx), Abs(p.y - cy);
        assert (u == x && v == y) || (u == y && v == x);
      }
    }
  }

  /** Every point draw::circle draws lies on the rasterised circle of radius r. */
  lemma CirclePointsOnCircle(cx: int, cy: int, r: int, octants: bv8)
    ensures forall p :: p in CirclePoints(cx, cy, HornRun(HornStart(r)), octants) ==> OnCircle(p, cx, cy, r)
  {
    CircleRun(r);
    PointsOfCloseRun(cx, cy, HornRun(HornStart(r)), octants, r);
  }

  /** A call is a horizontal (equal y ends) or vertical (equal x ends) line. */
  predicate Horizontal(c: Call) { c.DrawLine? && c.y1 == c.y2 }
  predicate Vertical(c: Call) { c.DrawLine? && c.x1 == c.x2 }

  /** The lines one pass of draw::disc's loop draws for the octants 0x04, 0x02, 0x20 and
      0x40, in that order: each runs along one row, from the circle to the diagonal. */
  function HorizontalSpans(cx: int, cy: int, x: int, y: int, octants: bv8): seq<Call>
  {
    PickLine(octants & 0x04 != 0, DrawLine(cx + x, cy + y + 1, cx + y + 1, cy + y + 1)) +
    PickLine(octants & 0x02 != 0, DrawLine(cx + x, cy - y, cx + y + 1, cy - y)) +
    PickLine(octants & 0x20 != 0, DrawLine(cx - x - 1, cy + y + 1, cx - y - 2, cy + y + 1)) +
    PickLine(octants & 0x40 != 0, DrawLine(cx - x - 1, cy - y, cx - y - 2, cy - y))
  }

  /** The lines for the octants 0x08, 0x01, 0x10 and 0x80, in that order: each runs
      along one column. */
  function VerticalSpans(cx: int, cy: int, x: int, y: int, octants: bv8): seq<Call>
  {
    PickLine(octants & 0x08 != 0, DrawLine(cx + y, cy + x + 1, cx + y, cy + y + 1)) +
    PickLine(octants & 0x01 != 0, DrawLine(cx + y, cy - x, cx + y, cy - y)) +
    PickLine(octants & 0x10 != 0, DrawLine(cx - y - 1, cy + x + 1, cx - y - 1, cy + y + 1)) +
    PickLine(octants & 0x80 != 0, DrawLine(cx - y - 1, cy - x, cx - y - 1, cy - y))
  }

  /** The lines one pass of draw::disc's loop draws: one per set bit, the horizontal
      octants first and the vertical ones after. */
  function OctantSpans(cx: int, cy: int, x: int, y: int, octants: bv8): seq<Call>
  {
    HorizontalSpans(cx, cy, x, y, octants) + VerticalSpans(cx, cy, x, y, octants)
  }

  /** One row-wise line per horizontal octant in the mask. */
  lemma HorizontalSpansFacts(cx: int, cy: int, x: int, y: int, octants: bv8)
    ensures |HorizontalSpans(cx, cy, x, y, octants)| == SetBits(octants & HorizontalOctants)
    ensures forall c :: c in HorizontalSpans(cx, cy, x, y, octants) ==> Horizontal(c)
  {
    SetBitsSplit(octants);
  }

  /** One column-wise line per vertical octant in the mask. */
  lemma VerticalSpansFacts(cx: int, cy: int, x: int, y: int, octants: bv8)
    ensures |VerticalSpans(cx, cy, x, y, octants)| == SetBits(octants & VerticalOctants)
    ensures forall c :: c in VerticalSpans(cx, cy, x, y, octants) ==> Vertical(c)
  {
    SetBitsSplit(octants);
  }

  /** One line per set bit: the horizontal octants' lines first, then the vertical ones'. */
  lemma OctantSpansFacts(cx: int, cy: int, x: int, y: int, octants: bv8)
    ensures |OctantSpans(cx, cy, x, y, octants)| == SetBits(octants)
    ensures forall i :: 0 <= i < SetBits(octants & HorizontalOctants) ==> Horizontal(OctantSpans(cx, cy, x, y, octants)[i])
    ensures forall i :: SetBits(octants & HorizontalOctants) <= i < |OctantSpans(cx, cy, x, y, octants)| ==>
      Vertical(OctantSpans(cx, cy, x, y, octants)[i])
  {
    SetBitsSplit(octants);
    HorizontalSpansFacts(cx, cy, x, y, octants);
    VerticalSpansFacts(cx, cy, x, y, octants);
    var horizontal := HorizontalSpans(cx, cy, x, y, octants);
    var vertical := VerticalSpans(cx, cy, x, y, octants);
    assert forall i :: 0 <= i < |horizontal| ==> (horizontal + vertical)[i] in horizontal;
    assert forall i :: |horizontal| <= i < |horizontal + vertical| ==> (horizontal + vertical)[i] in vertical;
  }

  /** All the lines drawn along a run. */
  function DiscSpans(cx: int, cy: int, run: seq<Horn>, octants: bv8): seq<Call>
  {
    if run == [] then []
    else OctantSpans(cx, cy, run[0].x, run[0].y, octants) + DiscSpans(cx, cy, run[1..], octants)
  }

  /** One line per set bit per pass, each of them horizontal or vertical. */
  lemma {:induction false} DiscSpansShape(cx: int, cy: int, run: seq<Horn>, octants: bv8)
    ensures |DiscSpans(cx, cy, run, octants)| == |run| * SetBits(octants)
    ensures forall i :: 0 <= i < |DiscSpans(cx, cy, run, octants)| ==>
      Horizontal(DiscSpans(cx, cy, run, octants)[i]) || Vertical(DiscSpans(cx, cy, run, octants)[i])
  {
    if run != [] {
      DiscSpansShape(cx, cy, run[1..], octants);
      MulStep(|run|, SetBits(octants));
      var here := OctantSpans(cx, cy, run[0].x, run[0].y, octants);
      OctantSpansFacts(cx, cy, run[0].x, run[0].y, octants);
      var rest := DiscSpans(cx, cy, run[1..], octants);
      forall i | 0 <= i < |here + rest|
        ensures Horizontal((here + rest)[i]) || Vertical((here + rest)[i])
      {
        if i >= |here| {
          assert (here + rest)[i] == rest[i - |here|];
        }
      }
    }
  }

  /** draw::disc runs the same passes as draw::circle for the same radius: it draws as
      many lines as draw::circle draws points. */
  lemma DiscMatchesCircle(cx: int, cy: int, r: int, octants: bv8)
    ensures |DiscSpans(cx, cy, HornRun(HornStart(r)), octants)|
         == |CirclePoints(cx, cy, HornRun(HornStart(r)), octants)|
         == |HornRun(HornStart(r))| * SetBits(octants)
  {
    DiscSpansShape(cx, cy, HornRun(HornStart(r)), octants);
    CirclePointsCount(cx, cy, HornRun(HornStart(r)), octants);
  }
}
