/** The draw:: namespace: thin wrappers that issue SDL render calls on the renderer,
    the circle and disc rasterisers, texture copies (plain, flipped, tiled), and the
    scoped setters that change the clip, the viewport or the render target and put the
    previous one back when the scope ends. */
module Draw {
  import opened Wrappers
  import opened Geometry
  import opened Render
  import opened Raster
  import opened Tiling

  /*************************************/
  /* basic drawing and pixel primitives */
  /*************************************/

  /** draw::fill(area, r, g, b, a): set the draw colour, then fill the area. */
  method FillRgba(rd: Renderer, area: Rect, r: Byte, g: Byte, b: Byte, a: Byte)
    modifies rd
    ensures rd.trace == old(rd.trace) + [SetDrawColor(Color(r, g, b, a)), FillRect(area)]
    ensures rd.State() == old(rd.State()).(color := Color(r, g, b, a))
  {
    rd.Emit(SetDrawColor(Color(r, g, b, a)));
    rd.Emit(FillRect(area));
  }

  /** draw::fill(area, r, g, b): the same, fully opaque. */
  method FillRgb(rd: Renderer, area: Rect, r: Byte, g: Byte, b: Byte)
    modifies rd
    ensures rd.trace == old(rd.trace) + [SetDrawColor(Color(r, g, b, Opaque)), FillRect(area)]
    ensures rd.State() == old(rd.State()).(color := Color(r, g, b, Opaque))
  {
    FillRgba(rd, area, r, g, b, Opaque);
  }

  /** draw::fill(area, c). */
  method FillColor(rd: Renderer, area: Rect, c: Color)
    modifies rd
    ensures rd.trace == old(rd.trace) + [SetDrawColor(c), FillRect(area)]
    ensures rd.State() == old(rd.State()).(color := c)
  {
    FillRgba(rd, area, c.r, c.g, c.b, c.a);
  }

  /** draw::fill(area): fill with the current draw colour. */
  method Fill(rd: Renderer, area: Rect)
    modifies rd
    ensures rd.trace == old(rd.trace) + [FillRect(area)]
    ensures rd.State() == old(rd.State())
  {
    rd.Emit(FillRect(area));
  }

  /** draw::set_color(r, g, b, a). */
  method SetColorRgba(rd: Renderer, r: Byte, g: Byte, b: Byte, a: Byte)
    modifies rd
    ensures rd.trace == old(rd.trace) + [SetDrawColor(Color(r, g, b, a))]
    ensures rd.State() == old(rd.State()).(color := Color(r, g, b, a))
  {
    rd.Emit(SetDrawColor(Color(r, g, b, a)));
  }

  /** draw::set_color(r, g, b): fully opaque. */
  method SetColorRgb(rd: Renderer, r: Byte, g: Byte, b: Byte)
    modifies rd
    ensures rd.trace == old(rd.trace) + [SetDrawColor(Color(r, g, b, Opaque))]
    ensures rd.State() == old(rd.State()).(color := Color(r, g, b, Opaque))
  {
    rd.Emit(SetDrawColor(Color(r, g, b, Opaque)));
  }

  /** draw::set_color(c). */
  method SetColor(rd: Renderer, c: Color)
    modifies rd
    ensures rd.trace == old(rd.trace) + [SetDrawColor(c)]
    ensures rd.State() == old(rd.State()).(color := c)
  {
    rd.Emit(SetDrawColor(c));
  }

  /** draw::rect(rect): outline with the current draw colour. */
  method Rectangle(rd: Renderer, rect: Rect)
    modifies rd
    ensures rd.trace == old(rd.trace) + [DrawRect(rect)]
    ensures rd.State() == old(rd.State())
  {
    rd.Emit(DrawRect(rect));
  }

  /** draw::rect(rect, r, g, b, a). */
  method RectangleRgba(rd: Renderer, rect: Rect, r: Byte, g: Byte, b: Byte, a: Byte)
    modifies rd
    ensures rd.trace == old(rd.trace) + [SetDrawColor(Color(r, g, b, a)), DrawRect(rect)]
    ensures rd.State() == old(rd.State()).(color := Color(r, g, b, a))
  {
    rd.Emit(SetDrawColor(Color(r, g, b, a)));
    rd.Emit(DrawRect(rect));
  }

  /** draw::rect(rect, r, g, b): fully opaque. */
  method RectangleRgb(rd: Renderer, rect: Rect, r: Byte, g: Byte, b: Byte)
    modifies rd
    ensures rd.trace == old(rd.trace) + [SetDrawColor(Color(r, g, b, Opaque)), DrawRect(rect)]
    ensures rd.State() == old(rd.State()).(color := Color(r, g, b, Opaque))
  {
    RectangleRgba(rd, rect, r, g, b, Opaque);
  }

  /** draw::rect(rect, c). */
  method RectangleColor(rd: Renderer, rect: Rect, c: Color)
    modifies rd
    ensures rd.trace == old(rd.trace) + [SetDrawColor(c), DrawRect(rect)]
    ensures rd.State() == old(rd.State()).(color := c)
  {
    RectangleRgba(rd, rect, c.r, c.g, c.b, c.a);
  }

  /** draw::line(from_x, from_y, to_x, to_y): with the current draw colour. */
  method Line(rd: Renderer, fromX: int, fromY: int, toX: int, toY: int)
    modifies rd
    ensures rd.trace == old(rd.trace) + [DrawLine(fromX, fromY, toX, toY)]
    ensures rd.State() == old(rd.State())
  {
    rd.Emit(DrawLine(fromX, fromY, toX, toY));
  }

  /** draw::line(from_x, from_y, to_x, to_y, c). */
  method LineColor(rd: Renderer, fromX: int, fromY: int, toX: int, toY: int, c: Color)
    modifies rd
    ensures rd.trace == old(rd.trace) + [SetDrawColor(c), DrawLine(fromX, fromY, toX, toY)]
    ensures rd.State() == old(rd.State()).(color := c)
  {
    rd.Emit(SetDrawColor(c));
    rd.Emit(DrawLine(fromX, fromY, toX, toY));
  }

  /** draw::points: all of them in one call. */
  method Points(rd: Renderer, points: seq<Point>)
    modifies rd
    ensures rd.trace == old(rd.trace) + [DrawPoints(points)]
    ensures rd.State() == old(rd.State())
  {
    rd.Emit(DrawPoints(points));
  }

  /** draw::point(x, y). */
  method PointAt(rd: Renderer, x: int, y: int)
    modifies rd
    ensures rd.trace == old(rd.trace) + [DrawPoint(Point(x, y))]
    ensures rd.State() == old(rd.State())
  {
    rd.Emit(DrawPoint(Point(x, y)));
  }

  /** `points.push_back(v)` when the mask has bit m set. */
  function Push(ps: seq<Point>, octants: bv8, m: bv8, p: Point): seq<Point>
  {
    if octants & m != 0 then ps + [p] else ps
  }

  /** The eight conditional pushes of one pass of draw::circle's loop, in source order. */
  function OctantPush(ps: seq<Point>, cx: int, cy: int, x: int, y: int, octants: bv8): seq<Point>
  {
    Push(Push(Push(Push(Push(Push(Push(Push(ps,
      octants, 0x04, Point(cx + x, cy + y)),
      octants, 0x02, Point(cx + x, cy - y)),
      octants, 0x20, Point(cx - x, cy + y)),
      octants, 0x40, Point(cx - x, cy - y)),
      octants, 0x08, Point(cx + y, cy + x)),
      octants, 0x01, Point(cx + y, cy - x)),
      octants, 0x10, Point(cx - y, cy + x)),
      octants, 0x80, Point(cx - y, cy - x))
  }

  /** The vector draw::circle's loop builds along a run, starting from ps. */
  function CirclePush(ps: seq<Point>, cx: int, cy: int, run: seq<Horn>, octants: bv8): seq<Point>
    decreases |run|
  {
    if run == [] then ps else CirclePush(OctantPush(ps, cx, cy, run[0].x, run[0].y, octants), cx, cy, run[1..], octants)
  }

  lemma OctantPointsPicks(cx: int, cy: int, x: int, y: int, octants: bv8)
    ensures OctantPoints(cx, cy, x, y, octants) ==
      Pick(octants & 0x04 != 0, Point(cx + x, cy + y))
      + Pick(octants & 0x02 != 0, Point(cx + x, cy - y))
      + Pick(octants & 0x20 != 0, Point(cx - x, cy + y))
      + Pick(octants & 0x40 != 0, Point(cx - x, cy - y))
      + Pick(octants & 0x08 != 0, Point(cx + y, cy + x))
      + Pick(octants & 0x01 != 0, Point(cx + y, cy - x))
      + Pick(octants & 0x10 != 0, Point(cx - y, cy + x))
      + Pick(octants & 0x80 != 0, Point(cx - y, cy - x))
  {
  }

  lemma PushPicks(ps: seq<Point>, octants: bv8, m: bv8, p: Point)
    ensures Push(ps, octants, m, p) == ps + Pick(octants & m != 0, p)
  {
  }

  lemma SeqAssoc8<T>(t: seq<T>, a: seq<T>, b: seq<T>, c: seq<T>, d: seq<T>, e: seq<T>, f: seq<T>, g: seq<T>, h: seq<T>)
    ensures t + (a + b + c + d + e + f + g + h) == t + a + b + c + d + e + f + g + h
  {
  }

  /** One pass pushes exactly the pass's octant images. */
  lemma OctantPushAppends(ps: seq<Point>, cx: int, cy: int, x: int, y: int, octants: bv8)
    ensures OctantPush(ps, cx, cy, x, y, octants) == ps + OctantPoints(cx, cy, x, y, octants)
  {
    var q0 := ps;
    var q1 := Push(q0, octants, 0x04, Point(cx + x, cy + y));
    PushPicks(q0, octants, 0x04, Point(cx + x, cy + y));
    var q2 := Push(q1, octants, 0x02, Point(cx + x, cy - y));
    PushPicks(q1, octants, 0x02, Point(cx + x, cy - y));
    var q3 := Push(q2, octants, 0x20, Point(cx - x, cy + y));
    PushPicks(q2, octants, 0x20, Point(cx - x, cy + y));
    var q4 := Push(q3, octants, 0x40, Point(cx - x, cy - y));
    PushPicks(q3, octants, 0x40, Point(cx - x, cy - y));
    var q5 := Push(q4, octants, 0x08, Point(cx + y, cy + x));
    PushPicks(q4, octants, 0x08, Point(cx + y, cy + x));
    var q6 := Push(q5, octants, 0x01, Point(cx + y, cy - x));
    PushPicks(q5, octants, 0x01, Point(cx + y, cy - x));
    var q7 := Push(q6, octants, 0x10, Point(cx - y, cy + x));
    PushPicks(q6, octants, 0x10, Point(cx - y, cy + x));
    var q8 := Push(q7, octants, 0x80, Point(cx - y, cy - x));
    PushPicks(q7, octants, 0x80, Point(cx - y, cy - x));
    assert OctantPush(ps, cx, cy, x, y, octants) == q8;
    OctantPointsPicks(cx, cy, x, y, octants);
    SeqAssoc8(ps, Pick(octants & 0x04 != 0, Point(cx + x, cy + y)), Pick(octants & 0x02 != 0, Point(cx + x, cy - y)), Pick(octants & 0x20 != 0, Point(cx - x, cy + y)), Pick(octants & 0x40 != 0, Point(cx - x, cy - y)), Pick(octants & 0x08 != 0, Point(cx + y, cy + x)), Pick(octants & 0x01 != 0, Point(cx + y, cy - x)), Pick(octants & 0x10 != 0, Point(cx - y, cy + x)), Pick(octants & 0x80 != 0, Point(cx - y, cy - x)));
  }

  /** The vector the loop builds is its starting contents followed by the points of the
      run as Raster specifies them. */
  lemma {:induction false} CirclePushAppends(ps: seq<Point>, cx: int, cy: int, run: seq<Horn>, octants: bv8)
    ensures CirclePush(ps, cx, cy, run, octants) == ps + CirclePoints(cx, cy, run, octants)
    decreases |run|
  {
    if run != [] {
      var here := OctantPoints(cx, cy, run[0].x, run[0].y, octants);
      var rest := CirclePoints(cx, cy, run[1..], octants);
      calc {
        CirclePush(ps, cx, cy, run, octants);
        CirclePush(OctantPush(ps, cx, cy, run[0].x, run[0].y, octants), cx, cy, run[1..], octants);
        { OctantPushAppends(ps, cx, cy, run[0].x, run[0].y, octants); }
        CirclePush(ps + here, cx, cy, run[1..], octants);
        { CirclePushAppends(ps + here, cx, cy, run[1..], octants); }
        ps + here + rest;
        ps + (here + rest);
        ps + CirclePoints(cx, cy, run, octants);
      }
    }
  }

  lemma CirclePushUnfold(ps: seq<Point>, cx: int, cy: int, s: Horn, octants: bv8)
    requires s.y <= s.x
    ensures CirclePush(ps, cx, cy, HornRun(s), octants)
         == CirclePush(OctantPush(ps, cx, cy, s.x, s.y, octants), cx, cy, HornRun(HornStep(s)), octants)
  {
    var run := HornRun(s);
    assert run[0] == s && run[1..] == HornRun(HornStep(s));
  }

  lemma DiscSpansUnfold(cx: int, cy: int, s: Horn, octants: bv8)
    requires s.y <= s.x
    ensures DiscSpans(cx, cy, HornRun(s), octants)
         == OctantSpans(cx, cy, s.x, s.y, octants) + DiscSpans(cx, cy, HornRun(HornStep(s)), octants)
  {
    var run := HornRun(s);
    assert run[0] == s && run[1..] == HornRun(HornStep(s));
  }

  /** The body of Horn's loop in draw::circle: one conditional push per octant, in the
      order 0x04, 0x02, 0x20, 0x40, 0x08, 0x01, 0x10, 0x80. */
  method PushOctants(points: seq<Point>, cx: int, cy: int, x: int, y: int, octants: bv8) returns (pushed: seq<Point>)
    ensures pushed == OctantPush(points, cx, cy, x, y, octants)
  {
    pushed := points;
    if octants & 0x04 != 0 { pushed := pushed + [Point(cx + x, cy + y)]; }
    if octants & 0x02 != 0 { pushed := pushed + [Point(cx + x, cy - y)]; }
    if octants & 0x20 != 0 { pushed := pushed + [Point(cx - x, cy + y)]; }
    if octants & 0x40 != 0 { pushed := pushed + [Point(cx - x, cy - y)]; }

    if octants & 0x08 != 0 { pushed := pushed + [Point(cx + y, cy + x)]; }
    if octants & 0x01 != 0 { pushed := pushed + [Point(cx + y, cy - x)]; }
    if octants & 0x10 != 0 { pushed := pushed + [Point(cx - y, cy + x)]; }
    if octants & 0x80 != 0 { pushed := pushed + [Point(cx - y, cy - x)]; }
  }

  /** draw::circle(cx, cy, r, octants): Horn's loop collects the mirror images of each
      octant point the mask selects, and all of them go to the renderer in one call.
      The points are exactly those of the run specified in Raster (CirclePoints), so by
      the lemmas there each lies on the rasterised circle and there is one per set bit
      per pass. */
  method Circle(rd: Renderer, cx: int, cy: int, r: int, octants: bv8)
    modifies rd
    ensures rd.trace == old(rd.trace) + [DrawPoints(CirclePoints(cx, cy, HornRun(HornStart(r)), octants))]
    ensures rd.State() == old(rd.State())
  {
    var d, x, y := -r, r, 0;
    var points: seq<Point> := [];
    while !(y > x)
      invariant CirclePush(points, cx, cy, HornRun(Horn(d, x, y)), octants)
             == CirclePush([], cx, cy, HornRun(HornStart(r)), octants)
      modifies {}
      decreases x - y + 1
    {
      ghost var s := Horn(d, x, y);
      CirclePushUnfold(points, cx, cy, s, octants);
      points := PushOctants(points, cx, cy, x, y, octants);

      d := d + 2 * y + 1;
      y := y + 1;
      if d > 0 {
        d := d + -2 * x + 2;
        x := x - 1;
      }
      assert Horn(d, x, y) == HornStep(s);
    }
    assert HornRun(Horn(d, x, y)) == [];
    CirclePushAppends([], cx, cy, HornRun(HornStart(r)), octants);
    assert points == CirclePoints(cx, cy, HornRun(HornStart(r)), octants);
    Points(rd, points);
  }

  /** draw::circle(cx, cy, r, c, octants): set the colour, then draw the circle. */
  method CircleColor(rd: Renderer, cx: int, cy: int, r: int, c: Color, octants: bv8)
    modifies rd
    ensures rd.trace == old(rd.trace)
      + [SetDrawColor(c), DrawPoints(CirclePoints(cx, cy, HornRun(HornStart(r)), octants))]
    ensures rd.State() == old(rd.State()).(color := c)
  {
    SetColor(rd, c);
    Circle(rd, cx, cy, r, octants);
  }

  /** One pass of a loop that consumes a run: the pass's pieces, then what is left, is
      still the whole run's output. */
  lemma Regroup<T>(before: seq<T>, h: seq<T>, v: seq<T>, rest: seq<T>, whole: seq<T>)
    requires before + ((h + v) + rest) == whole
    ensures before + h + v + rest == whole
  {
    assert before + ((h + v) + rest) == before + h + v + rest;
  }

  lemma SeqAssoc4<T>(t: seq<T>, a: seq<T>, b: seq<T>, c: seq<T>, e: seq<T>)
    ensures t + (a + b + c + e) == t + a + b + c + e
  {
  }

  /** The horizontal lines of one pass of draw::disc's loop. */
  method HorizontalPass(rd: Renderer, cx: int, cy: int, x: int, y: int, octants: bv8)
    modifies rd
    ensures rd.trace == old(rd.trace) + HorizontalSpans(cx, cy, x, y, octants)
    ensures rd.State() == old(rd.State())
  {
    ghost var t0 := rd.trace;
    if octants & 0x04 != 0 { Line(rd, cx + x, cy + y + 1, cx + y + 1, cy + y + 1); }
    ghost var t1 := rd.trace;
    assert t1 == t0 + PickLine(octants & 0x04 != 0, DrawLine(cx + x, cy + y + 1, cx + y + 1, cy + y + 1));
    if octants & 0x02 != 0 { Line(rd, cx + x, cy - y, cx + y + 1, cy - y); }
    ghost var t2 := rd.trace;
    assert t2 == t1 + PickLine(octants & 0x02 != 0, DrawLine(cx + x, cy - y, cx + y + 1, cy - y));
    if octants & 0x20 != 0 { Line(rd, cx - x - 1, cy + y + 1, cx - y - 2, cy + y + 1); }
    ghost var t3 := rd.trace;
    assert t3 == t2 + PickLine(octants & 0x20 != 0, DrawLine(cx - x - 1, cy + y + 1, cx - y - 2, cy + y + 1));
    if octants & 0x40 != 0 { Line(rd, cx - x - 1, cy - y, cx - y - 2, cy - y); }
    ghost var t4 := rd.trace;
    assert t4 == t3 + PickLine(octants & 0x40 != 0, DrawLine(cx - x - 1, cy - y, cx - y - 2, cy - y));
    assert HorizontalSpans(cx, cy, x, y, octants) == PickLine(octants & 0x04 != 0, DrawLine(cx + x, cy + y + 1, cx + y + 1, cy + y + 1)) + PickLine(octants & 0x02 != 0, DrawLine(cx + x, cy - y, cx + y + 1, cy - y)) + PickLine(octants & 0x20 != 0, DrawLine(cx - x - 1, cy + y + 1, cx - y - 2, cy + y + 1)) + PickLine(octants & 0x40 != 0, DrawLine(cx - x - 1, cy - y, cx - y - 2, cy - y));
    SeqAssoc4(t0, PickLine(octants & 0x04 != 0, DrawLine(cx + x, cy + y + 1, cx + y + 1, cy + y + 1)), PickLine(octants & 0x02 != 0, DrawLine(cx + x, cy - y, cx + y + 1, cy - y)), PickLine(octants & 0x20 != 0, DrawLine(cx - x - 1, cy + y + 1, cx - y - 2, cy + y + 1)), PickLine(octants & 0x40 != 0, DrawLine(cx - x - 1, cy - y, cx - y - 2, cy - y)));
  }

  /** The vertical lines of one pass of draw::disc's loop. */
  method VerticalPass(rd: Renderer, cx: int, cy: int, x: int, y: int, octants: bv8)
    modifies rd
    ensures rd.trace == old(rd.trace) + VerticalSpans(cx, cy, x, y, octants)
    ensures rd.State() == old(rd.State())
  {
    ghost var t0 := rd.trace;
    if octants & 0x08 != 0 { Line(rd, cx + y, cy + x + 1, cx + y, cy + y + 1); }
    ghost var t1 := rd.trace;
    assert t1 == t0 + PickLine(octants & 0x08 != 0, DrawLine(cx + y, cy + x + 1, cx + y, cy + y + 1));
    if octants & 0x01 != 0 { Line(rd, cx + y, cy - x, cx + y, cy - y); }
    ghost var t2 := rd.trace;
    assert t2 == t1 + PickLine(octants & 0x01 != 0, DrawLine(cx + y, cy - x, cx + y, cy - y));
    if octants & 0x10 != 0 { Line(rd, cx - y - 1, cy + x + 1, cx - y - 1, cy + y + 1); }
    ghost var t3 := rd.trace;
    assert t3 == t2 + PickLine(octants & 0x10 != 0, DrawLine(cx - y - 1, cy + x + 1, cx - y - 1, cy + y + 1));
    if octants & 0x80 != 0 { Line(rd, cx - y - 1, cy - x, cx - y - 1, cy - y); }
    ghost var t4 := rd.trace;
    assert t4 == t3 + PickLine(octants & 0x80 != 0, DrawLine(cx - y - 1, cy - x, cx - y - 1, cy - y));
    assert VerticalSpans(cx, cy, x, y, octants) == PickLine(octants & 0x08 != 0, DrawLine(cx + y, cy + x + 1, cx + y, cy + y + 1)) + PickLine(octants & 0x01 != 0, DrawLine(cx + y, cy - x, cx + y, cy - y)) + PickLine(octants & 0x10 != 0, DrawLine(cx - y - 1, cy + x + 1, cx - y - 1, cy + y + 1)) + PickLine(octants & 0x80 != 0, DrawLine(cx - y - 1, cy - x, cx - y - 1, cy - y));
    SeqAssoc4(t0, PickLine(octants & 0x08 != 0, DrawLine(cx + y, cy + x + 1, cx + y, cy + y + 1)), PickLine(octants & 0x01 != 0, DrawLine(cx + y, cy - x, cx + y, cy - y)), PickLine(octants & 0x10 != 0, DrawLine(cx - y - 1, cy + x + 1, cx - y - 1, cy + y + 1)), PickLine(octants & 0x80 != 0, DrawLine(cx - y - 1, cy - x, cx - y - 1, cy - y)));
  }

  lemma OctantSpansSplit(cx: int, cy: int, x: int, y: int, octants: bv8)
    ensures OctantSpans(cx, cy, x, y, octants)
         == HorizontalSpans(cx, cy, x, y, octants) + VerticalSpans(cx, cy, x, y, octants)
  {
  }

  /** draw::disc(cx, cy, r, octants): the same loop as draw::circle, but each selected
      octant point becomes a line from the circle to the diagonal, horizontal for the
      octants of HorizontalOctants and vertical for the others. */
  method Disc(rd: Renderer, cx: int, cy: int, r: int, octants: bv8)
    modifies rd
    ensures rd.trace == old(rd.trace) + DiscSpans(cx, cy, HornRun(HornStart(r)), octants)
    ensures rd.State() == old(rd.State())
  {
    var d, x, y := -r, r, 0;
    while !(y > x)
      invariant rd.State() == old(rd.State())
      invariant rd.trace + DiscSpans(cx, cy, HornRun(Horn(d, x, y)), octants)
             == old(rd.trace) + DiscSpans(cx, cy, HornRun(HornStart(r)), octants)
      decreases x - y + 1
    {
      ghost var before := rd.trace;
      ghost var s := Horn(d, x, y);
      DiscSpansUnfold(cx, cy, s, octants);
      OctantSpansSplit(cx, cy, x, y, octants);
      Regroup(before, HorizontalSpans(cx, cy, x, y, octants), VerticalSpans(cx, cy, x, y, octants),
              DiscSpans(cx, cy, HornRun(HornStep(s)), octants), old(rd.trace) + DiscSpans(cx, cy, HornRun(HornStart(r)), octants));
      HorizontalPass(rd, cx, cy, x, y, octants);
      VerticalPass(rd, cx, cy, x, y, octants);

      d := d + 2 * y + 1;
      y := y + 1;
      if d > 0 {
        d := d + -2 * x + 2;
        x := x - 1;
      }
      assert Horn(d, x, y) == HornStep(s);
    }
    assert HornRun(Horn(d, x, y)) == [];
  }

  /** draw::disc(cx, cy, r, c, octants): set the colour, then fill the disc. */
  method DiscColor(rd: Renderer, cx: int, cy: int, r: int, c: Color, octants: bv8)
    modifies rd
    ensures rd.trace == old(rd.trace) + [SetDrawColor(c)] + DiscSpans(cx, cy, HornRun(HornStart(r)), octants)
    ensures rd.State() == old(rd.State()).(color := c)
  {
    SetColor(rd, c);
    Disc(rd, cx, cy, r, octants);
  }

  /*******************/
  /* texture drawing */
  /*******************/

  /** draw::blit(tex, dst, src): copy part of the texture; a null texture draws nothing. */
  method BlitPart(rd: Renderer, tex: Texture, dst: Rect, src: Rect)
    modifies rd
    ensures rd.trace == old(rd.trace) + (if tex.NullTexture? then [] else [Copy(tex, Some(src), Some(dst))])
    ensures rd.State() == old(rd.State())
  {
    if tex.NullTexture? {
      return;
    }
    rd.Emit(Copy(tex, Some(src), Some(dst)));
  }

  /** draw::blit(tex, dst): copy the whole texture into dst. */
  method Blit(rd: Renderer, tex: Texture, dst: Rect)
    modifies rd
    ensures rd.trace == old(rd.trace) + (if tex.NullTexture? then [] else [Copy(tex, None, Some(dst))])
    ensures rd.State() == old(rd.State())
  {
    if tex.NullTexture? {
      return;
    }
    rd.Emit(Copy(tex, None, Some(dst)));
  }

  /** draw::blit(tex): copy the whole texture over the whole target. */
  method BlitWhole(rd: Renderer, tex: Texture)
    modifies rd
    ensures rd.trace == old(rd.trace) + (if tex.NullTexture? then [] else [Copy(tex, None, None)])
    ensures rd.State() == old(rd.State())
  {
    if tex.NullTexture? {
      return;
    }
    rd.Emit(Copy(tex, None, None));
  }

  /** get_flip: the SDL flip flags for a horizontal and a vertical mirror. Each flag is
      set exactly when its mirror is asked for, and no other bit is set. */
  function GetFlip(flipH: bool, flipV: bool): (f: bv32)
    ensures (f & FlipHorizontal != 0) <==> flipH
    ensures (f & FlipVertical != 0) <==> flipV
    ensures f & !(FlipHorizontal | FlipVertical) == 0
  {
    (if flipH then FlipHorizontal else FlipNone) | (if flipV then FlipVertical else FlipNone)
  }

  /** draw::flipped(tex, dst, src, flip_h, flip_v). */
  method FlippedPart(rd: Renderer, tex: Texture, dst: Rect, src: Rect, flipH: bool, flipV: bool)
    modifies rd
    ensures rd.trace == old(rd.trace)
      + (if tex.NullTexture? then [] else [CopyEx(tex, Some(src), Some(dst), GetFlip(flipH, flipV))])
    ensures rd.State() == old(rd.State())
  {
    if tex.NullTexture? {
      return;
    }
    var flip := GetFlip(flipH, flipV);
    rd.Emit(CopyEx(tex, Some(src), Some(dst), flip));
  }

  /** draw::flipped(tex, dst, flip_h, flip_v). */
  method Flipped(rd: Renderer, tex: Texture, dst: Rect, flipH: bool, flipV: bool)
    modifies rd
    ensures rd.trace == old(rd.trace)
      + (if tex.NullTexture? then [] else [CopyEx(tex, None, Some(dst), GetFlip(flipH, flipV))])
    ensures rd.State() == old(rd.State())
  {
    if tex.NullTexture? {
      return;
    }
    var flip := GetFlip(flipH, flipV);
    rd.Emit(CopyEx(tex, None, Some(dst), flip));
  }

  /** draw::flipped(tex, flip_h, flip_v). */
  method FlippedWhole(rd: Renderer, tex: Texture, flipH: bool, flipV: bool)
    modifies rd
    ensures rd.trace == old(rd.trace)
      + (if tex.NullTexture? then [] else [CopyEx(tex, None, None, GetFlip(flipH, flipV))])
    ensures rd.State() == old(rd.State())
  {
    if tex.NullTexture? {
      return;
    }
    var flip := GetFlip(flipH, flipV);
    rd.Emit(CopyEx(tex, None, None, flip));
  }

  /** The copy draw::tiled makes for one tile: flipped as the tile says when mirrored,
      a plain copy otherwise. */
  function TileCall(t: Tile, tex: Texture, mirrored: bool): Call
  {
    if mirrored then CopyEx(tex, None, Some(t.rect), GetFlip(t.hflip, t.vflip))
    else Copy(tex, None, Some(t.rect))
  }

  /** The copies for a sequence of tiles, in order. */
  function TileCalls(tiles: seq<Tile>, tex: Texture, mirrored: bool): seq<Call>
    decreases |tiles|
  {
    if tiles == [] then [] else [TileCall(tiles[0], tex, mirrored)] + TileCalls(tiles[1..], tex, mirrored)
  }

  lemma {:induction false} TileCallsAppend(a: seq<Tile>, b: seq<Tile>, tex: Texture, mirrored: bool)
    ensures TileCalls(a + b, tex, mirrored) == TileCalls(a, tex, mirrored) + TileCalls(b, tex, mirrored)
    decreases |a|
  {
    if a != [] {
      assert (a + b)[0] == a[0] && (a + b)[1..] == a[1..] + b;
      TileCallsAppend(a[1..], b, tex, mirrored);
    } else {
      assert a + b == b;
    }
  }

  /** Copy i is the copy for tile i. */
  lemma {:induction false} TileCallsAt(tiles: seq<Tile>, tex: Texture, mirrored: bool)
    ensures |TileCalls(tiles, tex, mirrored)| == |tiles|
    ensures forall i :: 0 <= i < |tiles| ==> TileCalls(tiles, tex, mirrored)[i] == TileCall(tiles[i], tex, mirrored)
    decreases |tiles|
  {
    if tiles != [] {
      TileCallsAt(tiles[1..], tex, mirrored);
    }
  }

  /** Consuming the head of what is left: the part done, then the step, then the rest. */
  lemma Consume<T>(done: seq<T>, step: seq<T>, rest: seq<T>, whole: seq<T>)
    requires done + (step + rest) == whole
    ensures done + step + rest == whole
  {
    assert done + (step + rest) == done + step + rest;
  }

  /** The inner loop of draw::tiled copies the tile at t, then the rest of the row. */
  lemma RowStep(t: Rect, xEnd: int, tex: Texture, hf: bool, vf: bool, mirrored: bool)
    requires tex.Texture? && tex.Valid() && t.w == tex.w && t.h == tex.h && t.x < xEnd
    ensures TileCalls(RowTiles(t.x, xEnd, t.y, tex.w, tex.h, hf, vf), tex, mirrored)
         == [TileCall(Tile(t, hf, vf), tex, mirrored)]
            + TileCalls(RowTiles(t.x + t.w, xEnd, t.y, tex.w, tex.h, !hf, vf), tex, mirrored)
  {
    var rest := RowTiles(t.x + t.w, xEnd, t.y, tex.w, tex.h, !hf, vf);
    assert RowTiles(t.x, xEnd, t.y, tex.w, tex.h, hf, vf) == [Tile(t, hf, vf)] + rest;
    TileCallsAppend([Tile(t, hf, vf)], rest, tex, mirrored);
  }

  /** The outer loop of draw::tiled copies one row, then the rows below it. */
  lemma GridStep(x0: int, xEnd: int, y: int, yEnd: int, tex: Texture, vf: bool, mirrored: bool)
    requires tex.Texture? && tex.Valid() && y < yEnd
    ensures TileCalls(GridTiles(x0, xEnd, y, yEnd, tex.w, tex.h, vf), tex, mirrored)
         == TileCalls(RowTiles(x0, xEnd, y, tex.w, tex.h, false, vf), tex, mirrored)
            + TileCalls(GridTiles(x0, xEnd, y + tex.h, yEnd, tex.w, tex.h, !vf), tex, mirrored)
  {
    TileCallsAppend(RowTiles(x0, xEnd, y, tex.w, tex.h, false, vf),
                    GridTiles(x0, xEnd, y + tex.h, yEnd, tex.w, tex.h, !vf), tex, mirrored);
  }

  /** One pass of the outer loop of draw::tiled: with the calls issued so far followed by
      the rows from y making up the whole, so do those calls, the row at y and the rows below. */
  lemma GridAdvance(done: seq<Call>, whole: seq<Call>, x0: int, xEnd: int, y: int, yEnd: int,
                    tex: Texture, vf: bool, mirrored: bool)
    requires tex.Texture? && tex.Valid() && y < yEnd
    requires done + TileCalls(GridTiles(x0, xEnd, y, yEnd, tex.w, tex.h, vf), tex, mirrored) == whole
    ensures done + TileCalls(RowTiles(x0, xEnd, y, tex.w, tex.h, false, vf), tex, mirrored)
              + TileCalls(GridTiles(x0, xEnd, y + tex.h, yEnd, tex.w, tex.h, !vf), tex, mirrored) == whole
  {
    GridStep(x0, xEnd, y, yEnd, tex, vf, mirrored);
    Consume(done, TileCalls(RowTiles(x0, xEnd, y, tex.w, tex.h, false, vf), tex, mirrored),
            TileCalls(GridTiles(x0, xEnd, y + tex.h, yEnd, tex.w, tex.h, !vf), tex, mirrored), whole);
  }

  /** The copies draw::tiled makes, as the layout in Tiling fixes them: copy k puts the
      whole texture at column k % cols and row k / cols of the grid, flipped
      horizontally on odd columns and vertically on odd rows when mirrored. */
  lemma TiledCopies(dst: Rect, tex: Texture, centered: bool, mirrored: bool)
    requires tex.Texture? && tex.Valid()
    ensures var x0 := dst.x - Offset(centered, dst.w, tex.w);
      var y0 := dst.y - Offset(centered, dst.h, tex.h);
      var cols := Steps(x0, dst.x + dst.w, tex.w);
      var calls := TileCalls(TilePlan(dst, tex.w, tex.h, centered), tex, mirrored);
      && |calls| == Steps(y0, dst.y + dst.h, tex.h) * cols
      && (cols > 0 ==> forall k :: 0 <= k < |calls| ==>
            var at := Rect(x0 + (k % cols) * tex.w, y0 + (k / cols) * tex.h, tex.w, tex.h);
            calls[k] == if mirrored then CopyEx(tex, None, Some(at), GetFlip((k % cols) % 2 == 1, (k / cols) % 2 == 1))
                        else Copy(tex, None, Some(at)))
  {
    TilePlanLayout(dst, tex.w, tex.h, centered);
    TileCallsAt(TilePlan(dst, tex.w, tex.h, centered), tex, mirrored);
  }

  /** The inner loop of draw::tiled: one row of copies from column xStart while the
      column is left of xEnd, the horizontal flip starting false and toggling. */
  method TiledRow(rd: Renderer, tex: Texture, t0: Rect, xStart: int, xEnd: int, vf: bool, mirrored: bool)
    requires tex.Texture? && tex.Valid() && t0.w == tex.w && t0.h == tex.h
    modifies rd
    ensures rd.State() == old(rd.State())
    ensures rd.trace == old(rd.trace) + TileCalls(RowTiles(xStart, xEnd, t0.y, tex.w, tex.h, false, vf), tex, mirrored)
  {
    ghost var rowStart := rd.trace;
    ghost var row := RowTiles(xStart, xEnd, t0.y, tex.w, tex.h, false, vf);
    var hf := false;
    var t := t0.(x := xStart);
    while t.x < xEnd
      invariant rd.State() == old(rd.State())
      invariant t.w == tex.w && t.h == tex.h && t.y == t0.y
      invariant rd.trace + TileCalls(RowTiles(t.x, xEnd, t.y, tex.w, tex.h, hf, vf), tex, mirrored)
             == rowStart + TileCalls(row, tex, mirrored)
      decreases xEnd - t.x
    {
      ghost var before := rd.trace;
      ghost var right := TileCalls(RowTiles(t.x + t.w, xEnd, t.y, tex.w, tex.h, !hf, vf), tex, mirrored);
      RowStep(t, xEnd, tex, hf, vf, mirrored);
      Consume(before, [TileCall(Tile(t, hf, vf), tex, mirrored)], right, rowStart + TileCalls(row, tex, mirrored));
      if mirrored {
        Flipped(rd, tex, t, hf, vf);
      } else {
        Blit(rd, tex, t);
      }
      t := t.(x := t.x + t.w);
      hf := !hf;
    }
  }

  /** The outer loop of draw::tiled: rows from dst.y - yoff while the row is above the
      bottom of dst, each starting at dst.x - xoff, the vertical flip toggling per row. */
  method TiledGrid(rd: Renderer, tex: Texture, dst: Rect, xoff: int, yoff: int, mirrored: bool)
    requires tex.Texture? && tex.Valid()
    modifies rd
    ensures rd.State() == old(rd.State())
    ensures rd.trace == old(rd.trace)
      + TileCalls(GridTiles(dst.x - xoff, dst.x + dst.w, dst.y - yoff, dst.y + dst.h, tex.w, tex.h, false), tex, mirrored)
  {
    var x0, xEnd, yEnd := dst.x - xoff, dst.x + dst.w, dst.y + dst.h;
    var vf := false;
    var y := dst.y - yoff;
    ghost var rest := TileCalls(GridTiles(x0, xEnd, y, yEnd, tex.w, tex.h, vf), tex, mirrored);
    ghost var whole := rd.trace + rest;
    while y < yEnd
      invariant rd.State() == old(rd.State())
      invariant rest == TileCalls(GridTiles(x0, xEnd, y, yEnd, tex.w, tex.h, vf), tex, mirrored)
      invariant rd.trace + rest == whole
      decreases yEnd - y
    {
      GridAdvance(rd.trace, whole, x0, xEnd, y, yEnd, tex, vf, mirrored);
      TiledRow(rd, tex, Rect(x0, y, tex.w, tex.h), x0, xEnd, vf, mirrored);
      y := y + tex.h;
      vf := !vf;
      rest := TileCalls(GridTiles(x0, xEnd, y, yEnd, tex.w, tex.h, vf), tex, mirrored);
    }
  }

  /** draw::tiled: with the clip reduced to dst for the duration, copy the texture over
      dst row by row, column by column (see TilePlan), mirrored alternately when asked.
      A null texture draws nothing and leaves the clip alone. */
  method Tiled(rd: Renderer, tex: Texture, dst: Rect, centered: bool, mirrored: bool)
    requires tex.Valid()
    modifies rd
    ensures tex.NullTexture? ==> rd.trace == old(rd.trace) && rd.State() == old(rd.State())
    ensures tex.Texture? ==>
      rd.trace == old(rd.trace)
         + ForceCalls(rd.present, SetClipRect(ReducedClip(old(GetClip(rd)), dst)))
         + TileCalls(TilePlan(dst, tex.w, tex.h, centered), tex, mirrored)
         + ForceCalls(rd.present, SetClipRect(old(GetClip(rd))))
    ensures tex.Texture? ==>
      rd.State() == old(rd.State()).(clip := Forced(rd.present, old(rd.clip), old(GetClip(rd))))
  {
    if tex.NullTexture? {
      return;
    }

    var clipper := ReduceClip(rd, dst);
    var xoff := if centered then CDiv(dst.w - tex.w, 2) else 0;
    var yoff := if centered then CDiv(dst.h - tex.h, 2) else 0;
    TiledGrid(rd, tex, dst, xoff, yoff, mirrored);
    EndClip(rd, clipper);
  }

  /** draw::tiled_highres: the same clip scope as draw::tiled around copies placed in
      floating-point coordinates, which the model records as one call. */
  method TiledHighres(rd: Renderer, tex: Texture, dst: Rect, centered: bool, mirrored: bool)
    modifies rd
    ensures tex.NullTexture? ==> rd.trace == old(rd.trace) && rd.State() == old(rd.State())
    ensures tex.Texture? ==>
      rd.trace == old(rd.trace)
         + ForceCalls(rd.present, SetClipRect(ReducedClip(old(GetClip(rd)), dst)))
         + [CopyTiledHighres(tex, dst, centered, mirrored)]
         + ForceCalls(rd.present, SetClipRect(old(GetClip(rd))))
    ensures tex.Texture? ==>
      rd.State() == old(rd.State()).(clip := Forced(rd.present, old(rd.clip), old(GetClip(rd))))
  {
    if tex.NullTexture? {
      return;
    }
    var clipper := ReduceClip(rd, dst);
    rd.Emit(CopyTiledHighres(tex, dst, centered, mirrored));
    EndClip(rd, clipper);
  }

  /***************************/
  /* RAII state manipulation */
  /***************************/

  /** What draw::get_clip and draw::get_viewport return for a stored rectangle `raw`:
      the empty rectangle without a renderer, the draw area when nothing is stored (SDL
      reports "no clip" and "default viewport" as the empty rectangle), `raw` otherwise. */
  function Observed(present: bool, raw: Rect, drawArea: Rect): Rect
  {
    if !present then EmptyRect
    else if raw == EmptyRect then drawArea
    else raw
  }

  /** The stored rectangle after draw::force_clip or draw::force_viewport: without a
      renderer they return before touching SDL. */
  function Forced(present: bool, raw: Rect, to: Rect): Rect
  {
    if present then to else raw
  }

  /** The SDL call a force_ function issues: none without a renderer. */
  function ForceCalls(present: bool, c: Call): seq<Call>
  {
    if present then [c] else []
  }

  /** draw::get_clip: the empty rectangle without a renderer, the draw area when no clip
      is set, the clip otherwise; so it is empty only without a renderer or with an empty
      draw area. */
  function GetClip(rd: Renderer): (r: Rect)
    reads rd
    ensures !rd.present ==> r == EmptyRect
    ensures rd.present && rd.clip != EmptyRect ==> r == rd.clip
    ensures rd.present && rd.clip == EmptyRect ==> r == rd.drawArea
    ensures r == EmptyRect <==> !rd.present || (rd.clip == EmptyRect && rd.drawArea == EmptyRect)
  {
    Observed(rd.present, rd.clip, rd.drawArea)
  }

  /** draw::get_viewport: the empty rectangle without a renderer, the draw area for the
      default viewport, the viewport otherwise. */
  function GetViewport(rd: Renderer): (r: Rect)
    reads rd
    ensures !rd.present ==> r == EmptyRect
    ensures rd.present && rd.viewport != EmptyRect ==> r == rd.viewport
    ensures rd.present && rd.viewport == EmptyRect ==> r == rd.drawArea
    ensures r == EmptyRect <==> !rd.present || (rd.viewport == EmptyRect && rd.drawArea == EmptyRect)
  {
    Observed(rd.present, rd.viewport, rd.drawArea)
  }

  /** A scope that ends a clip or viewport change: what the constructor observed and
      the destructor forces back. */
  datatype ClipSetter = ClipSetter(saved: Rect)
  datatype ViewportSetter = ViewportSetter(saved: Rect)

  /** draw::force_clip. */
  method ForceClip(rd: Renderer, clip: Rect)
    modifies rd
    ensures rd.trace == old(rd.trace) + ForceCalls(rd.present, SetClipRect(clip))
    ensures rd.State() == old(rd.State()).(clip := Forced(rd.present, old(rd.clip), clip))
  {
    if !rd.present {
      return;
    }
    rd.Emit(SetClipRect(clip));
  }

  /** draw::set_clip (the clip_setter constructor): remember the observed clip, then
      force the new one. */
  method SetClip(rd: Renderer, clip: Rect) returns (setter: ClipSetter)
    modifies rd
    ensures setter.saved == old(GetClip(rd))
    ensures rd.trace == old(rd.trace) + ForceCalls(rd.present, SetClipRect(clip))
    ensures rd.State() == old(rd.State()).(clip := Forced(rd.present, old(rd.clip), clip))
  {
    setter := ClipSetter(GetClip(rd));
    ForceClip(rd, clip);
  }

  /** The clip_setter destructor: force the remembered clip back. */
  method EndClip(rd: Renderer, setter: ClipSetter)
    modifies rd
    ensures rd.trace == old(rd.trace) + ForceCalls(rd.present, SetClipRect(setter.saved))
    ensures rd.State() == old(rd.State()).(clip := Forced(rd.present, old(rd.clip), setter.saved))
  {
    ForceClip(rd, setter.saved);
  }

  /** The clip draw::reduce_clip installs over the current clip `current`: the new clip
      alone when there is no current clip, otherwise the pixels in both. */
  function ReducedClip(current: Rect, clip: Rect): (r: Rect)
    ensures current == EmptyRect ==> r == clip
    ensures current != EmptyRect ==>
      forall px, py :: Contains(r, px, py) <==> Contains(clip, px, py) && Contains(current, px, py)
  {
    if current == EmptyRect then clip else IntersectRects(clip, current)
  }

  /** draw::reduce_clip: a clip scope whose clip never lets through a pixel the
      current clip stops. */
  method ReduceClip(rd: Renderer, clip: Rect) returns (setter: ClipSetter)
    modifies rd
    ensures setter.saved == old(GetClip(rd))
    ensures rd.trace == old(rd.trace) + ForceCalls(rd.present, SetClipRect(ReducedClip(old(GetClip(rd)), clip)))
    ensures rd.State() == old(rd.State()).(clip := Forced(rd.present, old(rd.clip), ReducedClip(old(GetClip(rd)), clip)))
  {
    var c := GetClip(rd);
    if c == EmptyRect {
      setter := SetClip(rd, clip);
    } else {
      setter := SetClip(rd, IntersectRects(clip, c));
    }
  }

  /** draw::force_viewport. */
  method ForceViewport(rd: Renderer, viewport: Rect)
    modifies rd
    ensures rd.trace == old(rd.trace) + ForceCalls(rd.present, SetViewport(viewport))
    ensures rd.State() == old(rd.State()).(viewport := Forced(rd.present, old(rd.viewport), viewport))
  {
    if !rd.present {
      return;
    }
    rd.Emit(SetViewport(viewport));
  }

  /** draw::set_viewport (the viewport_setter constructor). */
  method SetViewportScope(rd: Renderer, viewport: Rect) returns (setter: ViewportSetter)
    modifies rd
    ensures setter.saved == old(GetViewport(rd))
    ensures rd.trace == old(rd.trace) + ForceCalls(rd.present, SetViewport(viewport))
    ensures rd.State() == old(rd.State()).(viewport := Forced(rd.present, old(rd.viewport), viewport))
  {
    setter := ViewportSetter(GetViewport(rd));
    ForceViewport(rd, viewport);
  }

  /** The viewport_setter destructor. */
  method EndViewport(rd: Renderer, setter: ViewportSetter)
    modifies rd
    ensures rd.trace == old(rd.trace) + ForceCalls(rd.present, SetViewport(setter.saved))
    ensures rd.State() == old(rd.State()).(viewport := Forced(rd.present, old(rd.viewport), setter.saved))
  {
    ForceViewport(rd, setter.saved);
  }

  /** A clip or viewport scope, opened over stored rectangle `raw` with any `to` and
      then closed, gives back the rectangle the drawing code observed. The stored
      rectangle itself comes back only when it was not the empty "unset" value (or the
      draw area is empty too): an unset clip or viewport comes back set to the draw area. */
  lemma ScopeRestores(present: bool, raw: Rect, drawArea: Rect, to: Rect)
    ensures var saved := Observed(present, raw, drawArea);
      var restored := Forced(present, Forced(present, raw, to), saved);
      && Observed(present, restored, drawArea) == saved
      && (restored == raw <==> !present || raw != EmptyRect || drawArea == EmptyRect)
  {
  }

  /** Opening draw::reduce_clip inside an existing clip never widens it. */
  lemma ReduceClipNarrows(current: Rect, clip: Rect, px: int, py: int)
    requires current != EmptyRect
    ensures Contains(ReducedClip(current, clip), px, py) ==> Contains(current, px, py)
  {
  }

  /** What a render_target_setter restores: the previous target and the stored
      viewport. */
  datatype RenderTargetSetter = RenderTargetSetter(target: Texture, viewport: Rect)

  /** draw::set_render_target (the render_target_setter constructor). The texture must
      be a render target. Without a renderer nothing happens and the setter remembers a
      null target and an empty viewport. */
  method SetRenderTarget(rd: Renderer, t: Texture) returns (setter: RenderTargetSetter)
    requires t.Texture? && t.access == Target
    modifies rd
    ensures !rd.present ==>
      && setter == RenderTargetSetter(NullTexture, EmptyRect)
      && rd.trace == old(rd.trace) && rd.State() == old(rd.State())
    ensures rd.present ==>
      && setter == RenderTargetSetter(old(rd.target), old(rd.viewport))
      && rd.trace == old(rd.trace) + [Render.SetRenderTarget(t)]
      && rd.State() == old(rd.State()).(target := t)
  {
    setter := RenderTargetSetter(NullTexture, EmptyRect);
    if !rd.present {
      return;
    }
    setter := RenderTargetSetter(rd.target, rd.viewport);
    rd.Emit(Render.SetRenderTarget(t));
  }

  /** The render_target_setter destructor: put back the target, then the viewport. */
  method EndRenderTarget(rd: Renderer, setter: RenderTargetSetter)
    modifies rd
    ensures !rd.present ==> rd.trace == old(rd.trace) && rd.State() == old(rd.State())
    ensures rd.present ==>
      && rd.trace == old(rd.trace) + [Render.SetRenderTarget(setter.target), SetViewport(setter.viewport)]
      && rd.State() == old(rd.State()).(target := setter.target, viewport := setter.viewport)
  {
    if !rd.present {
      return;
    }
    rd.Emit(Render.SetRenderTarget(setter.target));
    rd.Emit(SetViewport(setter.viewport));
  }

  /** A render-target scope, closed after any drawing that left the target and viewport
      alone, gives back the renderer state it found. */
  lemma RenderTargetScopeRestores(before: RenderState, t: Texture, drawn: seq<Call>)
    requires DrawsOnly(drawn)
    ensures var setter := RenderTargetSetter(before.target, before.viewport);
      var inside := Replay(Apply(before, Render.SetRenderTarget(t)), drawn);
      Replay(inside, [Render.SetRenderTarget(setter.target), SetViewport(setter.viewport)]) == before
  {
    ReplayDrawsOnly(Apply(before, Render.SetRenderTarget(t)), drawn);
    var two := [Render.SetRenderTarget(before.target), SetViewport(before.viewport)];
    assert two[..1] == [Render.SetRenderTarget(before.target)];
    assert two[..1][..0] == [];
  }
}
