/** What each canvas shape draws: for every shape a function giving the SDL calls its
    draw routine issues (the specification), the routine itself as a method over the
    renderer proved to issue exactly those calls, and lemmas stating what the calls
    are in the shape's own terms (rings, insets, corner arcs, tile layout). */
module ShapeDraw {
  import opened Wrappers
  import opened Geometry
  import opened Render
  import opened Raster
  import opened Tiling
  import opened Draw
  import opened Shapes

  /** What drawing produced: whether it got through its validations, and the SDL calls
      it issued (on failure, those issued before the failure). */
  datatype Drawn = Drawn(outcome: Outcome, calls: seq<Call>)

  lemma Assoc<T>(a: seq<T>, b: seq<T>, c: seq<T>)
    ensures a + b + c == a + (b + c)
  {
  }

  /** Blocks 0 .. n-1 of calls, in that order: what a loop issuing block i on pass i
      issues in n passes. */
  function Blocks(block: int -> seq<Call>, n: int): seq<Call>
    decreases n
  {
    if n <= 0 then [] else Blocks(block, n - 1) + block(n - 1)
  }

  /** n blocks of one size make size * n calls. */
  lemma {:induction false} BlocksLength(block: int -> seq<Call>, size: nat, n: nat)
    requires forall i :: 0 <= i < n ==> |block(i)| == size
    ensures |Blocks(block, n)| == size * n
    decreases n
  {
    if n > 0 {
      BlocksLength(block, size, n - 1);
      assert size * n == size * (n - 1) + size;
    }
  }

  /** The first m blocks begin the first n, for m <= n: a later pass never changes what
      an earlier one issued. */
  lemma {:induction false} BlocksPrefix(block: int -> seq<Call>, m: int, n: int)
    requires 0 <= m <= n
    ensures |Blocks(block, m)| <= |Blocks(block, n)|
    ensures Blocks(block, n)[..|Blocks(block, m)|] == Blocks(block, m)
    decreases n
  {
    if m < n {
      BlocksPrefix(block, m, n - 1);
      var before := Blocks(block, n - 1);
      assert Blocks(block, n) == before + block(n - 1);
      assert (before + block(n - 1))[..|Blocks(block, m)|] == before[..|Blocks(block, m)|];
    }
  }

  /** Block i of n is the slice the i-th pass issued, between the lengths of the first
      i and the first i + 1 blocks. */
  lemma BlockSlice(block: int -> seq<Call>, i: int, n: int)
    requires 0 <= i < n
    ensures |Blocks(block, i)| + |block(i)| <= |Blocks(block, n)|
    ensures Blocks(block, n)[|Blocks(block, i)| .. |Blocks(block, i)| + |block(i)|] == block(i)
  {
    BlocksPrefix(block, i + 1, n);
    var upto := Blocks(block, i + 1);
    assert upto == Blocks(block, i) + block(i);
    assert Blocks(block, n)[|Blocks(block, i)| .. |upto|] == upto[|Blocks(block, i)| ..];
  }

  /** Two call sequences that set no colour make one that sets none. */
  lemma KeepsColorAppend(a: seq<Call>, b: seq<Call>)
    requires KeepsColor(a) && KeepsColor(b)
    ensures KeepsColor(a + b)
  {
    forall j | 0 <= j < |a + b|
      ensures !(a + b)[j].SetDrawColor?
    {
      if j >= |a| {
        assert (a + b)[j] == b[j - |a|];
      }
    }
  }

  /** Blocks that set no colour make a sequence that sets none. */
  lemma {:induction false} BlocksKeepColor(block: int -> seq<Call>, n: int)
    requires forall i :: 0 <= i < n ==> KeepsColor(block(i))
    ensures KeepsColor(Blocks(block, n))
    decreases n
  {
    if n > 0 {
      BlocksKeepColor(block, n - 1);
      KeepsColorAppend(Blocks(block, n - 1), block(n - 1));
    }
  }

  /********/
  /* line */
  /********/

  /** line_shape::draw: the end points are moved from widget space to draw space
      (plus draw_location, minus the portion's origin) in `unsigned` arithmetic and
      read back as `int`; the line gets the shape's colour. The thickness is not used. */
  function LineCalls(s: Shape, portion: Rect, location: Rect, vars: Variables, host: Host): seq<Call>
    requires s.LineShape?
  {
    [SetDrawColor(Eval(s.color, vars, host.colors)),
     DrawLine(Wrap32(location.x + Eval(s.x1, vars, host.ints) - portion.x),
              Wrap32(location.y + Eval(s.y1, vars, host.ints) - portion.y),
              Wrap32(location.x + Eval(s.x2, vars, host.ints) - portion.x),
              Wrap32(location.y + Eval(s.y2, vars, host.ints) - portion.y))]
  }

  /** When the coordinates stay within `int`, the line runs between the shape's two end
      points moved by the same offset, so it keeps its direction and length. */
  lemma LineMoves(s: Shape, portion: Rect, location: Rect, vars: Variables, host: Host)
    requires s.LineShape?
    ensures var x1, y1 := Eval(s.x1, vars, host.ints), Eval(s.y1, vars, host.ints);
      var x2, y2 := Eval(s.x2, vars, host.ints), Eval(s.y2, vars, host.ints);
      var dx, dy := location.x - portion.x, location.y - portion.y;
      var c := LineCalls(s, portion, location, vars, host)[1];
      (-0x8000_0000 <= x1 + dx < 0x8000_0000 && -0x8000_0000 <= y1 + dy < 0x8000_0000 &&
       -0x8000_0000 <= x2 + dx < 0x8000_0000 && -0x8000_0000 <= y2 + dy < 0x8000_0000) ==>
      c.x2 - c.x1 == x2 - x1 && c.y2 - c.y1 == y2 - y1 && c.x1 == x1 + dx && c.y1 == y1 + dy
  {
  }

  method DrawLineShape(rd: Renderer, s: Shape, portion: Rect, location: Rect, vars: Variables, host: Host)
    requires s.LineShape?
    modifies rd
    ensures rd.trace == old(rd.trace) + LineCalls(s, portion, location, vars, host)
    ensures rd.State() == old(rd.State()).(color := Eval(s.color, vars, host.colors))
  {
    var x1 := Wrap32(location.x + Eval(s.x1, vars, host.ints) - portion.x);
    var y1 := Wrap32(location.y + Eval(s.y1, vars, host.ints) - portion.y);
    var x2 := Wrap32(location.x + Eval(s.x2, vars, host.ints) - portion.x);
    var y2 := Wrap32(location.y + Eval(s.y2, vars, host.ints) - portion.y);
    LineColor(rd, x1, y1, x2, y2, Eval(s.color, vars, host.colors));
  }

  /*************/
  /* rectangle */
  /*************/

  /** r with every side moved inwards by n. */
  function Inset(r: Rect, n: int): Rect
  {
    Rect(r.x + n, r.y + n, r.w - 2 * n, r.h - 2 * n)
  }

  /** The outlines of border rings 0 .. n-1, ring i inset by i. */
  function Outlines(r: Rect, n: int): seq<Call>
    decreases n
  {
    if n <= 0 then [] else Outlines(r, n - 1) + [DrawRect(Inset(r, n - 1))]
  }

  /** There are max(n, 0) outlines, and outline i is r inset by i. */
  lemma {:induction false} OutlinesAt(r: Rect, n: int)
    ensures |Outlines(r, n)| == Max(n, 0)
    ensures forall i :: 0 <= i < |Outlines(r, n)| ==> Outlines(r, n)[i] == DrawRect(Inset(r, i))
    decreases n
  {
    if n > 0 {
      OutlinesAt(r, n - 1);
    }
  }

  /** rectangle_shape::draw for the calculated rects and the evaluated colours: nothing
      when the shape is outside the view; otherwise the fill (only for a non-null fill
      colour) inset by the border thickness, then the border colour and the rings. */
  function RectangleCalls(rects: CalculatedRects, location: Rect, thickness: int, fill: Color, border: Color): seq<Call>
  {
    if rects.empty then []
    else
      var r := Shift(rects.unclippedAroundViewport, location.x, location.y);
      (if IsNull(fill) then [] else [SetDrawColor(fill), FillRect(Inset(r, thickness))])
      + [SetDrawColor(border)] + Outlines(r, thickness)
  }

  /** The calls of a visible rectangle, position by position: the fill is there exactly
      when the fill colour is not null, covers the rectangle less the border on every
      side, and comes first; then the border colour; then exactly `thickness` outlines
      (none for a non-positive thickness), ring i inset by i on every side. */
  lemma RectangleLayout(rects: CalculatedRects, location: Rect, thickness: int, fill: Color, border: Color)
    requires !rects.empty
    ensures var calls := RectangleCalls(rects, location, thickness, fill, border);
      var r := Shift(rects.unclippedAroundViewport, location.x, location.y);
      var k := if IsNull(fill) then 0 else 2;
      && |calls| == k + 1 + Max(thickness, 0)
      && (IsNull(fill) <==> forall j :: 0 <= j < |calls| ==> !calls[j].FillRect?)
      && (!IsNull(fill) ==> calls[0] == SetDrawColor(fill) && calls[1] == FillRect(Inset(r, thickness)))
      && calls[k] == SetDrawColor(border)
      && forall i :: 0 <= i < thickness ==> calls[k + 1 + i] == DrawRect(Inset(r, i))
  {
    var r := Shift(rects.unclippedAroundViewport, location.x, location.y);
    OutlinesAt(r, thickness);
    var k := if IsNull(fill) then 0 else 2;
    var calls := RectangleCalls(rects, location, thickness, fill, border);
    var head := if IsNull(fill) then [] else [SetDrawColor(fill), FillRect(Inset(r, thickness))];
    assert calls == head + [SetDrawColor(border)] + Outlines(r, thickness);
    assert |head| == k;
    forall j | k + 1 <= j < |calls|
      ensures calls[j] == DrawRect(Inset(r, j - k - 1))
    {
      assert calls[j] == Outlines(r, thickness)[j - k - 1];
    }
    if IsNull(fill) {
      forall j | 0 <= j < |calls|
        ensures !calls[j].FillRect?
      {
        if j == 0 {
          assert calls[j] == SetDrawColor(border);
        }
      }
    } else {
      assert calls[1].FillRect?;
    }
  }

  /** The colour rectangle_shape::draw leaves: the one it found for a shape outside the
      view, the border colour otherwise (the outlines set no colour). */
  lemma RectangleColor(c: Color, rects: CalculatedRects, location: Rect, thickness: int, fill: Color, border: Color)
    ensures ColorAfter(c, RectangleCalls(rects, location, thickness, fill, border)) == if rects.empty then c else border
  {
    if !rects.empty {
      var r := Shift(rects.unclippedAroundViewport, location.x, location.y);
      OutlinesAt(r, thickness);
      ColorSetLast(c, if IsNull(fill) then [] else [SetDrawColor(fill), FillRect(Inset(r, thickness))],
                   border, Outlines(r, thickness));
    }
  }

  /** The fill of rectangle_shape::draw: only for a non-null fill colour, the rectangle
      less the border on every side. */
  method DrawRectangleFill(rd: Renderer, r: Rect, thickness: int, fill: Color)
    modifies rd
    ensures rd.trace == old(rd.trace) + (if IsNull(fill) then [] else [SetDrawColor(fill), FillRect(Inset(r, thickness))])
    ensures rd.color == if IsNull(fill) then old(rd.color) else fill
    ensures rd.clip == old(rd.clip) && rd.viewport == old(rd.viewport) && rd.target == old(rd.target)
  {
    if !IsNull(fill) {
      SetColor(rd, fill);
      var area := r;
      area := area.(x := area.x + thickness, y := area.y + thickness);
      area := area.(w := area.w - 2 * thickness, h := area.h - 2 * thickness);
      Fill(rd, area);
    }
  }

  /** The border loop of rectangle_shape::draw: ring i outlines r inset by i. */
  method DrawOutlines(rd: Renderer, r: Rect, thickness: int)
    modifies rd
    ensures rd.trace == old(rd.trace) + Outlines(r, thickness)
    ensures rd.State() == old(rd.State())
  {
    var i := 0;
    while i < thickness
      invariant 0 <= i && (i <= thickness || i == 0)
      invariant rd.State() == old(rd.State())
      invariant rd.trace == old(rd.trace) + Outlines(r, i)
    {
      var dimensions := r;
      dimensions := dimensions.(x := dimensions.x + i, y := dimensions.y + i);
      dimensions := dimensions.(w := dimensions.w - 2 * i, h := dimensions.h - 2 * i);
      Rectangle(rd, dimensions);
      i := i + 1;
    }
    assert Outlines(r, i) == Outlines(r, thickness);
  }

  /** rectangle_shape::draw. */
  method DrawRectangleShape(rd: Renderer, s: Shape, portion: Rect, location: Rect, vars: Variables, host: Host)
    requires s.RectangleShape?
    modifies rd
    ensures rd.trace == old(rd.trace)
      + RectangleCalls(ShapeRects(s.bounds, portion, vars, host), location, s.borderThickness,
                       Eval(s.fillColor, vars, host.colors), Eval(s.borderColor, vars, host.colors))
    ensures rd.color == if ShapeRects(s.bounds, portion, vars, host).empty then old(rd.color) else Eval(s.borderColor, vars, host.colors)
    ensures rd.clip == old(rd.clip) && rd.viewport == old(rd.viewport) && rd.target == old(rd.target)
  {
    var rects := ShapeRects(s.bounds, portion, vars, host);
    if rects.empty {
      return;
    }
    var fill := Eval(s.fillColor, vars, host.colors);
    var border := Eval(s.borderColor, vars, host.colors);
    var r := rects.unclippedAroundViewport;
    r := r.(x := r.x + location.x, y := r.y + location.y);
    DrawRectangleFill(rd, r, s.borderThickness, fill);
    SetColor(rd, border);
    DrawOutlines(rd, r, s.borderThickness);
  }

  /**********/
  /* circle */
  /**********/

  /** The radius ring i is drawn with: `radius - i` in `unsigned` arithmetic, passed to
      draw::circle as an `int`. */
  function RingRadius(radius: UInt32, i: int): Int32
  {
    ToSigned(ToUnsigned(radius - i))
  }

  /** Ring i is drawn with radius `radius - i` while that fits in an `int`. Once the
      ring index passes the radius the difference wraps to a negative radius, and such
      a ring draws no point. */
  lemma RingRadiusFacts(radius: UInt32, i: int)
    ensures 0 <= i <= radius && radius - i < 0x8000_0000 ==> RingRadius(radius, i) == radius - i
    ensures radius < i <= radius + 0x8000_0000 ==>
      RingRadius(radius, i) == radius - i && HornRun(HornStart(RingRadius(radius, i))) == []
  {
    assert Wrap32(radius - i) == RingRadius(radius, i);
  }

  /** Ring i of circle_shape::draw: the border colour, then all eight octants of the
      circle of radius RingRadius(radius, i). */
  function CircleRing(x: int, y: int, radius: UInt32, border: Color): int -> seq<Call>
  {
    i => [SetDrawColor(border), DrawPoints(CirclePoints(x, y, HornRun(HornStart(RingRadius(radius, i))), 0xff))]
  }

  /** The rings circle_shape::draw draws, 0 .. n-1. */
  function CircleRings(x: int, y: int, radius: UInt32, n: nat, border: Color): seq<Call>
  {
    Blocks(CircleRing(x, y, radius, border), n)
  }

  /** Two calls per ring: the border colour, then the points of ring i. */
  lemma CircleRingsAt(x: int, y: int, radius: UInt32, n: nat, border: Color)
    ensures |CircleRings(x, y, radius, n, border)| == 2 * n
    ensures forall i :: 0 <= i < n ==>
      && CircleRings(x, y, radius, n, border)[2 * i] == SetDrawColor(border)
      && CircleRings(x, y, radius, n, border)[2 * i + 1]
         == DrawPoints(CirclePoints(x, y, HornRun(HornStart(RingRadius(radius, i))), 0xff))
  {
    var ring := CircleRing(x, y, radius, border);
    BlocksLength(ring, 2, n);
    var all := Blocks(ring, n);
    forall i | 0 <= i < n
      ensures all[2 * i] == SetDrawColor(border)
      ensures all[2 * i + 1] == DrawPoints(CirclePoints(x, y, HornRun(HornStart(RingRadius(radius, i))), 0xff))
    {
      BlocksLength(ring, 2, i);
      BlockSlice(ring, i, n);
      assert all[2 * i] == ring(i)[0] && all[2 * i + 1] == ring(i)[1];
    }
  }

  /** circle_shape::draw for the evaluated centre (in draw space), radius (`unsigned`),
      colours and ring count: the disc when the fill colour is not null and the radius
      is not zero, then the rings. */
  function CircleCalls(x: Int32, y: Int32, radius: UInt32, rings: UInt32, fill: Color, border: Color): seq<Call>
  {
    CircleFill(x, y, radius, fill) + CircleRings(x, y, radius, rings, border)
  }

  /** The disc of circle_shape::draw: only for a non-null fill colour and a non-zero
      radius. */
  function CircleFill(x: Int32, y: Int32, radius: UInt32, fill: Color): seq<Call>
  {
    if !IsNull(fill) && radius != 0
    then [SetDrawColor(fill)] + DiscSpans(x, y, HornRun(HornStart(ToSigned(radius))), 0xff)
    else []
  }

  /** The centre in draw space: `int` plus `unsigned` minus `int`, read back as `int`. */
  function CircleCentre(v: Int32, location: int, portion: int): Int32
  {
    Wrap32(location + ToUnsigned(v) - portion)
  }

  /** The centre is the formula's point moved into draw space whenever that fits in an
      `int`: the `unsigned` detour changes nothing. */
  lemma CircleCentreMoves(v: Int32, location: int, portion: int)
    ensures -0x8000_0000 <= location + v - portion < 0x8000_0000 ==>
      CircleCentre(v, location, portion) == location + v - portion
  {
    var u := ToUnsigned(v);
    assert ((location + u - portion) - (location + v - portion)) % TwoTo32 == 0;
    assert Wrap32(location + u - portion) == Wrap32(location + v - portion);
  }

  /** A filled circle draws the disc's spans, one per octant per pass of Horn's loop,
      after its colour; every ring then adds the colour and one call of points. */
  lemma CircleCallsCount(x: Int32, y: Int32, radius: UInt32, rings: UInt32, fill: Color, border: Color)
    ensures |CircleCalls(x, y, radius, rings, fill, border)|
         == (if !IsNull(fill) && radius != 0 then 1 + 8 * |HornRun(HornStart(ToSigned(radius)))| else 0) + 2 * rings
  {
    assert SetBits(0xff) == 8;
    var run := HornRun(HornStart(ToSigned(radius)));
    DiscSpansShape(x, y, run, 0xff);
    CircleRingsAt(x, y, radius, rings, border);
  }

  /** After the disc: its fill colour when it fills, else the colour found. */
  lemma CircleFillColor(c: Color, x: Int32, y: Int32, radius: UInt32, fill: Color)
    ensures ColorAfter(c, CircleFill(x, y, radius, fill)) == if !IsNull(fill) && radius != 0 then fill else c
  {
    if !IsNull(fill) && radius != 0 {
      var run := HornRun(HornStart(ToSigned(radius)));
      DiscSpansShape(x, y, run, 0xff);
      assert CircleFill(x, y, radius, fill) == [] + [SetDrawColor(fill)] + DiscSpans(x, y, run, 0xff);
      ColorSetLast(c, [], fill, DiscSpans(x, y, run, 0xff));
    }
  }

  /** After the rings: the border colour when there is one, else the colour found. */
  lemma CircleRingsColor(c: Color, x: Int32, y: Int32, radius: UInt32, rings: UInt32, border: Color)
    ensures ColorAfter(c, CircleRings(x, y, radius, rings, border)) == if rings > 0 then border else c
  {
    if rings > 0 {
      var ring := CircleRing(x, y, radius, border);
      var last := [DrawPoints(CirclePoints(x, y, HornRun(HornStart(RingRadius(radius, rings - 1))), 0xff))];
      assert ring(rings - 1) == [SetDrawColor(border)] + last;
      assert CircleRings(x, y, radius, rings, border) == Blocks(ring, rings - 1) + [SetDrawColor(border)] + last;
      ColorSetLast(c, Blocks(ring, rings - 1), border, last);
    }
  }

  /** The colour circle_shape::draw leaves: the border colour when it draws a ring, else
      the fill colour when it fills, else the one it found (the spans and the points set
      no colour). */
  lemma CircleShapeColor(c: Color, x: Int32, y: Int32, radius: UInt32, rings: UInt32, fill: Color, border: Color)
    ensures ColorAfter(c, CircleCalls(x, y, radius, rings, fill, border))
         == if rings > 0 then border else if !IsNull(fill) && radius != 0 then fill else c
  {
    ColorAfterAppend(c, CircleFill(x, y, radius, fill), CircleRings(x, y, radius, rings, border));
    CircleFillColor(c, x, y, radius, fill);
    CircleRingsColor(ColorAfter(c, CircleFill(x, y, radius, fill)), x, y, radius, rings, border);
  }

  /** The fill of circle_shape::draw. */
  method DrawCircleFill(rd: Renderer, x: Int32, y: Int32, radius: UInt32, fill: Color)
    modifies rd
    ensures rd.trace == old(rd.trace) + CircleFill(x, y, radius, fill)
    ensures rd.color == if !IsNull(fill) && radius != 0 then fill else old(rd.color)
    ensures rd.clip == old(rd.clip) && rd.viewport == old(rd.viewport) && rd.target == old(rd.target)
  {
    if !IsNull(fill) && radius != 0 {
      ghost var t0 := rd.trace;
      DiscColor(rd, x, y, ToSigned(radius), fill, 0xff);
      Assoc(t0, [SetDrawColor(fill)], DiscSpans(x, y, HornRun(HornStart(ToSigned(radius))), 0xff));
    }
  }

  /** The ring loop of circle_shape::draw. */
  method DrawCircleRings(rd: Renderer, x: Int32, y: Int32, radius: UInt32, rings: UInt32, border: Color)
    modifies rd
    ensures rd.trace == old(rd.trace) + CircleRings(x, y, radius, rings, border)
    ensures rd.color == if rings > 0 then border else old(rd.color)
    ensures rd.clip == old(rd.clip) && rd.viewport == old(rd.viewport) && rd.target == old(rd.target)
  {
    var i := 0;
    while i < rings
      invariant 0 <= i <= rings
      invariant rd.color == if i > 0 then border else old(rd.color)
      invariant rd.clip == old(rd.clip) && rd.viewport == old(rd.viewport) && rd.target == old(rd.target)
      invariant rd.trace == old(rd.trace) + CircleRings(x, y, radius, i, border)
    {
      CircleColor(rd, x, y, RingRadius(radius, i), border, 0xff);
      assert CircleRings(x, y, radius, i + 1, border) == CircleRings(x, y, radius, i, border) + CircleRing(x, y, radius, border)(i);
      i := i + 1;
    }
  }

  /** circle_shape::draw. */
  method DrawCircleShape(rd: Renderer, s: Shape, portion: Rect, location: Rect, vars: Variables, host: Host)
    requires s.CircleShape?
    modifies rd
    ensures rd.trace == old(rd.trace)
      + CircleCalls(CircleCentre(Eval(s.x, vars, host.ints), location.x, portion.x),
                    CircleCentre(Eval(s.y, vars, host.ints), location.y, portion.y),
                    ToUnsigned(Eval(s.radius, vars, host.ints)), s.rings,
                    Eval(s.fillColor, vars, host.colors), Eval(s.borderColor, vars, host.colors))
    ensures rd.color == if s.rings > 0 then Eval(s.borderColor, vars, host.colors)
      else if !IsNull(Eval(s.fillColor, vars, host.colors)) && ToUnsigned(Eval(s.radius, vars, host.ints)) != 0
      then Eval(s.fillColor, vars, host.colors) else old(rd.color)
    ensures rd.clip == old(rd.clip) && rd.viewport == old(rd.viewport) && rd.target == old(rd.target)
  {
    var x := CircleCentre(Eval(s.x, vars, host.ints), location.x, portion.x);
    var y := CircleCentre(Eval(s.y, vars, host.ints), location.y, portion.y);
    var radius := ToUnsigned(Eval(s.radius, vars, host.ints));
    var fill := Eval(s.fillColor, vars, host.colors);
    ghost var t0 := rd.trace;
    DrawCircleFill(rd, x, y, radius, fill);
    var border := Eval(s.borderColor, vars, host.colors);
    DrawCircleRings(rd, x, y, radius, s.rings, border);
    Assoc(t0, CircleFill(x, y, radius, fill), CircleRings(x, y, radius, s.rings, border));
  }

  /*********************/
  /* rounded rectangle */
  /*********************/

  /** The octant masks round_rectangle_shape::draw uses for its four corners. */
  const TopLeft: bv8 := 0xc0
  const TopRight: bv8 := 0x03
  const BottomLeft: bv8 := 0x30
  const BottomRight: bv8 := 0x0c

  /** The corner masks split the circle: pairwise disjoint, two octants each, all
      eight together. */
  lemma CornerMasks()
    ensures TopLeft & TopRight == 0 && TopLeft & BottomLeft == 0 && TopLeft & BottomRight == 0
    ensures TopRight & BottomLeft == 0 && TopRight & BottomRight == 0 && BottomLeft & BottomRight == 0
    ensures TopLeft | TopRight | BottomLeft | BottomRight == 0xff
    ensures SetBits(TopLeft) == 2 && SetBits(TopRight) == 2 && SetBits(BottomLeft) == 2 && SetBits(BottomRight) == 2
  {
  }

  /** The corner on the given sides: right or left, below or above. */
  function CornerMask(right: bool, below: bool): bv8
  {
    if right then (if below then BottomRight else TopRight) else (if below then BottomLeft else TopLeft)
  }

  /** The point lies on the given sides of the centre (or on its axes). */
  predicate Side(p: Point, cx: int, cy: int, right: bool, below: bool)
  {
    (if right then p.x >= cx else p.x <= cx) && (if below then p.y >= cy else p.y <= cy)
  }

  /** One pass of a corner: the two points it pushes, when 0 <= y <= x. */
  lemma OctantCorner(cx: int, cy: int, x: int, y: int, right: bool, below: bool)
    requires 0 <= y <= x
    ensures forall p :: p in OctantPoints(cx, cy, x, y, CornerMask(right, below)) ==> Side(p, cx, cy, right, below)
  {
    var ps := OctantPoints(cx, cy, x, y, CornerMask(right, below));
    if right && below {
      assert ps == [Point(cx + x, cy + y), Point(cx + y, cy + x)];
    } else if right {
      assert ps == [Point(cx + x, cy - y), Point(cx + y, cy - x)];
    } else if below {
      assert ps == [Point(cx - x, cy + y), Point(cx - y, cy + x)];
    } else {
      assert ps == [Point(cx - x, cy - y), Point(cx - y, cy - x)];
    }
  }

  /** Each corner's octants draw only on its own side of the centre, for every run of
      heads with 0 <= y <= x. */
  lemma {:induction false} CornerPoints(cx: int, cy: int, run: seq<Horn>, right: bool, below: bool)
    requires forall i :: 0 <= i < |run| ==> 0 <= run[i].y <= run[i].x
    ensures forall p :: p in CirclePoints(cx, cy, run, CornerMask(right, below)) ==> Side(p, cx, cy, right, below)
  {
    if run != [] {
      CornerPoints(cx, cy, run[1..], right, below);
      OctantCorner(cx, cy, run[0].x, run[0].y, right, below);
    }
  }

  /** The arc of radius r drawn at a corner lies on the circle and in that corner's
      quadrant of it. */
  lemma CornerArc(cx: int, cy: int, r: int, right: bool, below: bool)
    ensures forall p :: p in CirclePoints(cx, cy, HornRun(HornStart(r)), CornerMask(right, below)) ==>
      Side(p, cx, cy, right, below) && OnCircle(p, cx, cy, r)
  {
    CircleRun(r);
    CornerPoints(cx, cy, HornRun(HornStart(r)), right, below);
    CirclePointsOnCircle(cx, cy, r, CornerMask(right, below));
  }

  /** The quarter arc of radius r a corner draws: one call with the points of its two
      octants. */
  function Arc(cx: int, cy: int, r: int, octants: bv8): seq<Call>
  {
    [DrawPoints(CirclePoints(cx, cy, HornRun(HornStart(r)), octants))]
  }

  /** The quarter disc of radius r a corner fills: the spans of its two octants. */
  function Quarter(cx: int, cy: int, r: int, octants: bv8): seq<Call>
  {
    DiscSpans(cx, cy, HornRun(HornStart(r)), octants)
  }

  /** The three fill bands of a rounded rectangle at (x, y) of size w x h with corner
      radius r and border thickness t: top band between the corners, middle band across
      the whole width inside the border, bottom band between the corners. */
  function Bands(x: int, y: int, w: int, h: int, r: int, t: int): seq<Call>
  {
    [FillRect(Rect(x + r, y + t, w - r * 2, r - t + 1)),
     FillRect(Rect(x + t, y + r + 1, w - t * 2, h - r * 2)),
     FillRect(Rect(x + r, y - r + h + 1, w - r * 2, r - t))]
  }

  /** The quarter discs filling the four corners, centred r inside each corner. */
  function Quarters(x: int, y: int, w: int, h: int, r: int): seq<Call>
  {
    Quarter(x + r, y + r, r, TopLeft) + Quarter(x + w - r, y + r, r, TopRight)
    + Quarter(x + r, y + h - r, r, BottomLeft) + Quarter(x + w - r, y + h - r, r, BottomRight)
  }

  /** The fill: the bands, then the corners. */
  function RoundFill(x: int, y: int, w: int, h: int, r: int, t: int): seq<Call>
  {
    Bands(x, y, w, h, r, t) + Quarters(x, y, w, h, r)
  }

  /** The four straight edges of border ring i: top, bottom, left, right. */
  function RingEdges(x: int, y: int, w: int, h: int, r: int, i: int): seq<Call>
  {
    [DrawLine(x + r, y + i, x + w - r, y + i),
     DrawLine(x + r, y + h - i, x + w - r, y + h - i),
     DrawLine(x + i, y + r, x + i, y + h - r),
     DrawLine(x + w - i, y + r, x + w - i, y + h - r)]
  }

  /** The four corner arcs of border ring i, of radius r - i. */
  function RingArcs(x: int, y: int, w: int, h: int, r: int, i: int): seq<Call>
  {
    Arc(x + r, y + r, r - i, TopLeft) + Arc(x + w - r, y + r, r - i, TopRight)
    + Arc(x + r, y + h - r, r - i, BottomLeft) + Arc(x + w - r, y + h - r, r - i, BottomRight)
  }

  /** Border ring i: its edges, then its arcs. */
  function RoundRing(x: int, y: int, w: int, h: int, r: int, i: int): seq<Call>
  {
    RingEdges(x, y, w, h, r, i) + RingArcs(x, y, w, h, r, i)
  }

  /** Border ring i, for each i. */
  function Ring(x: int, y: int, w: int, h: int, r: int): int -> seq<Call>
  {
    i => RoundRing(x, y, w, h, r, i)
  }

  /** Border rings 0 .. n-1. */
  function RoundRings(x: int, y: int, w: int, h: int, r: int, n: int): seq<Call>
  {
    Blocks(Ring(x, y, w, h, r), n)
  }

  /** The body of round_rectangle_shape::draw once the rectangle is placed: the fill
      when the fill colour is not null and the size is not zero, then the border colour
      and the rings. */
  function RoundBody(x: int, y: int, w: int, h: int, r: int, t: int, fill: Color, border: Color): seq<Call>
  {
    (if !IsNull(fill) && w != 0 && h != 0 then [SetDrawColor(fill)] + RoundFill(x, y, w, h, r, t) else [])
    + [SetDrawColor(border)] + RoundRings(x, y, w, h, r, t)
  }

  /** round_rectangle_shape::draw as the source has it: the placed rectangle is the
      unclipped one, even when calculate_rects found the shape outside the view (its
      rectangle is then the empty one, so the border is drawn at draw_location). */
  function RoundRectangleAsWritten(rects: CalculatedRects, location: Rect, r: int, t: int, fill: Color, border: Color): seq<Call>
  {
    var u := rects.unclippedAroundViewport;
    RoundBody(location.x + u.x, location.y + u.y, u.w, u.h, r, t, fill, border)
  }

  /** round_rectangle_shape::draw with the check every other rectangle-bounded shape
      makes: nothing at all when the shape is outside the view. */
  function RoundRectangleCalls(rects: CalculatedRects, location: Rect, r: int, t: int, fill: Color, border: Color): seq<Call>
  {
    if rects.empty then [] else RoundRectangleAsWritten(rects, location, r, t, fill, border)
  }

  /** No call in the sequence fills a rectangle. */
  predicate NoFill(calls: seq<Call>)
  {
    forall j :: 0 <= j < |calls| ==> !calls[j].FillRect?
  }

  /** A ring is eight calls, none of them a fill. */
  lemma RoundRingFacts(x: int, y: int, w: int, h: int, r: int, i: int)
    ensures |RoundRing(x, y, w, h, r, i)| == 8 && NoFill(RoundRing(x, y, w, h, r, i))
  {
  }

  /** Two call sequences without a fill make one without a fill. */
  lemma NoFillAppend(a: seq<Call>, b: seq<Call>)
    requires NoFill(a) && NoFill(b)
    ensures NoFill(a + b)
  {
    forall j | 0 <= j < |a + b|
      ensures !(a + b)[j].FillRect?
    {
      if j >= |a| {
        assert (a + b)[j] == b[j - |a|];
      }
    }
  }

  /** Blocks without a fill make a sequence without a fill. */
  lemma {:induction false} BlocksNoFill(block: int -> seq<Call>, n: int)
    requires forall i :: 0 <= i < n ==> NoFill(block(i))
    ensures NoFill(Blocks(block, n))
    decreases n
  {
    if n > 0 {
      BlocksNoFill(block, n - 1);
      NoFillAppend(Blocks(block, n - 1), block(n - 1));
    }
  }

  /** Eight calls per ring, ring i at positions 8i .. 8i+7; no ring fills anything. */
  lemma RoundRingsAt(x: int, y: int, w: int, h: int, r: int, n: int)
    ensures |RoundRings(x, y, w, h, r, n)| == 8 * Max(n, 0)
    ensures forall i :: 0 <= i < n ==> RoundRings(x, y, w, h, r, n)[8 * i .. 8 * i + 8] == RoundRing(x, y, w, h, r, i)
    ensures NoFill(RoundRings(x, y, w, h, r, n))
  {
    var ring := Ring(x, y, w, h, r);
    forall i | 0 <= i < n
      ensures ring(i) == RoundRing(x, y, w, h, r, i)
      ensures |ring(i)| == 8 && NoFill(ring(i))
    {
      RoundRingFacts(x, y, w, h, r, i);
    }
    if n > 0 {
      BlocksLength(ring, 8, n);
      forall i | 0 <= i < n
        ensures Blocks(ring, n)[8 * i .. 8 * i + 8] == RoundRing(x, y, w, h, r, i)
      {
        BlocksLength(ring, 8, i);
        BlockSlice(ring, i, n);
      }
    }
    BlocksNoFill(ring, n);
  }

  /** Ring i: its first two edges are horizontal and the next two vertical, and its
      four arcs are the corner arcs of radius r - i, top-left, top-right, bottom-left,
      bottom-right (CornerArc says where their points lie). */
  lemma RoundRingShape(x: int, y: int, w: int, h: int, r: int, i: int)
    ensures var ring := RoundRing(x, y, w, h, r, i);
      && |ring| == 8
      && Horizontal(ring[0]) && Horizontal(ring[1]) && Vertical(ring[2]) && Vertical(ring[3])
      && ring[4..5] == Arc(x + r, y + r, r - i, CornerMask(false, false))
      && ring[5..6] == Arc(x + w - r, y + r, r - i, CornerMask(true, false))
      && ring[6..7] == Arc(x + r, y + h - r, r - i, CornerMask(false, true))
      && ring[7..8] == Arc(x + w - r, y + h - r, r - i, CornerMask(true, true))
  {
    var edges := RingEdges(x, y, w, h, r, i);
    var a1 := Arc(x + r, y + r, r - i, TopLeft);
    var a2 := Arc(x + w - r, y + r, r - i, TopRight);
    var a3 := Arc(x + r, y + h - r, r - i, BottomLeft);
    var a4 := Arc(x + w - r, y + h - r, r - i, BottomRight);
    var ring := edges + (a1 + a2 + a3 + a4);
    assert |a1| == 1 && |a2| == 1 && |a3| == 1 && |a4| == 1;
    assert ring[4..5] == a1 && ring[5..6] == a2 && ring[6..7] == a3 && ring[7..8] == a4;
  }

  /** A rounded rectangle fills something exactly when its fill colour is not null and
      its width and height are not zero. */
  lemma RoundFillIff(x: int, y: int, w: int, h: int, r: int, t: int, fill: Color, border: Color)
    ensures NoFill(RoundBody(x, y, w, h, r, t, fill, border)) <==> !(!IsNull(fill) && w != 0 && h != 0)
  {
    var calls := RoundBody(x, y, w, h, r, t, fill, border);
    RoundRingsAt(x, y, w, h, r, t);
    var rings := RoundRings(x, y, w, h, r, t);
    if !IsNull(fill) && w != 0 && h != 0 {
      assert calls[1] == Bands(x, y, w, h, r, t)[0];
    } else {
      assert calls == [SetDrawColor(border)] + rings;
      forall j | 0 <= j < |calls|
        ensures !calls[j].FillRect?
      {
        if j > 0 {
          assert calls[j] == rings[j - 1];
        }
      }
    }
  }

  /** The corrected routine draws nothing for a shape outside the view and agrees with
      the source's routine for every shape inside it. */
  lemma RoundRectangleCorrected(rects: CalculatedRects, location: Rect, r: int, t: int, fill: Color, border: Color)
    ensures rects.empty ==> RoundRectangleCalls(rects, location, r, t, fill, border) == []
    ensures !rects.empty ==>
      RoundRectangleCalls(rects, location, r, t, fill, border) == RoundRectangleAsWritten(rects, location, r, t, fill, border)
  {
  }

  /** The source's routine on a shape that lies wholly outside the view: a 10 x 10
      rounded rectangle at the widget's origin, drawn for the portion (100, 100, 10, 10),
      with corner radius 2 and a one-pixel border. calculate_rects reports it empty,
      yet the source draws a border colour and a ring of eight calls at draw_location. */
  lemma RoundRectangleOutsideView()
    ensures var rects := CalculateRects(0, 0, 10, 10, Rect(100, 100, 10, 10));
      && rects.empty
      && |RoundRectangleAsWritten(rects, Rect(0, 0, 50, 50), 2, 1, NullColor, Color(0, 0, 0, 255))| == 9
      && RoundRectangleCalls(rects, Rect(0, 0, 50, 50), 2, 1, NullColor, Color(0, 0, 0, 255)) == []
  {
    var rects := CalculateRects(0, 0, 10, 10, Rect(100, 100, 10, 10));
    CalculateRectsEmpty(0, 0, 10, 10, Rect(100, 100, 10, 10));
    assert forall px, py :: !(Contains(Rect(0, 0, 10, 10), px, py) && Contains(Rect(100, 100, 10, 10), px, py));
    RoundRingsAt(0, 0, 0, 0, 2, 1);
  }

  /** Border rings set no colour: their edges are lines and their arcs points. */
  lemma RoundRingsKeepColor(x: int, y: int, w: int, h: int, r: int, n: int)
    ensures KeepsColor(RoundRings(x, y, w, h, r, n))
  {
    var ring := Ring(x, y, w, h, r);
    forall i | 0 <= i < n
      ensures KeepsColor(ring(i))
    {
      RoundRingShape(x, y, w, h, r, i);
      var calls := ring(i);
      assert calls[4..5] == Arc(x + r, y + r, r - i, CornerMask(false, false));
      assert calls[4] == calls[4..5][0];
      assert calls[5] == calls[5..6][0];
      assert calls[6] == calls[6..7][0];
      assert calls[7] == calls[7..8][0];
    }
    BlocksKeepColor(ring, n);
  }

  /** The colour round_rectangle_shape::draw leaves: as written, always the border
      colour; corrected, the one it found for a shape outside the view and the border
      colour otherwise. */
  lemma RoundRectangleColor(c: Color, rects: CalculatedRects, location: Rect, r: int, t: int, fill: Color, border: Color)
    ensures ColorAfter(c, RoundRectangleAsWritten(rects, location, r, t, fill, border)) == border
    ensures ColorAfter(c, RoundRectangleCalls(rects, location, r, t, fill, border)) == if rects.empty then c else border
  {
    var u := rects.unclippedAroundViewport;
    var x, y := location.x + u.x, location.y + u.y;
    RoundRingsKeepColor(x, y, u.w, u.h, r, t);
    ColorSetLast(c, if !IsNull(fill) && u.w != 0 && u.h != 0 then [SetDrawColor(fill)] + RoundFill(x, y, u.w, u.h, r, t) else [],
                 border, RoundRings(x, y, u.w, u.h, r, t));
  }

  /** One corner arc. */
  method DrawArc(rd: Renderer, cx: int, cy: int, r: int, octants: bv8)
    modifies rd
    ensures rd.trace == old(rd.trace) + Arc(cx, cy, r, octants)
    ensures rd.State() == old(rd.State())
  {
    Circle(rd, cx, cy, r, octants);
  }

  /** One corner's quarter disc. */
  method DrawQuarter(rd: Renderer, cx: int, cy: int, r: int, octants: bv8)
    modifies rd
    ensures rd.trace == old(rd.trace) + Quarter(cx, cy, r, octants)
    ensures rd.State() == old(rd.State())
  {
    Disc(rd, cx, cy, r, octants);
  }

  /** The three fill bands. */
  method DrawBands(rd: Renderer, x: int, y: int, w: int, h: int, r: int, t: int)
    modifies rd
    ensures rd.trace == old(rd.trace) + Bands(x, y, w, h, r, t)
    ensures rd.State() == old(rd.State())
  {
    Fill(rd, Rect(x + r, y + t, w - r * 2, r - t + 1));
    Fill(rd, Rect(x + t, y + r + 1, w - t * 2, h - r * 2));
    Fill(rd, Rect(x + r, y - r + h + 1, w - r * 2, r - t));
  }

  /** The four quarter discs. */
  method DrawQuarters(rd: Renderer, x: int, y: int, w: int, h: int, r: int)
    modifies rd
    ensures rd.trace == old(rd.trace) + Quarters(x, y, w, h, r)
    ensures rd.State() == old(rd.State())
  {
    ghost var t0 := rd.trace;
    ghost var q1 := Quarter(x + r, y + r, r, TopLeft);
    ghost var q2 := Quarter(x + w - r, y + r, r, TopRight);
    ghost var q3 := Quarter(x + r, y + h - r, r, BottomLeft);
    ghost var q4 := Quarter(x + w - r, y + h - r, r, BottomRight);
    DrawQuarter(rd, x + r, y + r, r, TopLeft);
    DrawQuarter(rd, x + w - r, y + r, r, TopRight);
    Assoc(t0, q1, q2);
    DrawQuarter(rd, x + r, y + h - r, r, BottomLeft);
    Assoc(t0, q1 + q2, q3);
    DrawQuarter(rd, x + w - r, y + h - r, r, BottomRight);
    Assoc(t0, q1 + q2 + q3, q4);
  }

  /** The fill: bands, then corners. */
  method DrawRoundFill(rd: Renderer, x: int, y: int, w: int, h: int, r: int, t: int)
    modifies rd
    ensures rd.trace == old(rd.trace) + RoundFill(x, y, w, h, r, t)
    ensures rd.State() == old(rd.State())
  {
    DrawBands(rd, x, y, w, h, r, t);
    DrawQuarters(rd, x, y, w, h, r);
    Assoc(old(rd.trace), Bands(x, y, w, h, r, t), Quarters(x, y, w, h, r));
  }

  /** The four edges of a ring. */
  method DrawRingEdges(rd: Renderer, x: int, y: int, w: int, h: int, r: int, i: int)
    modifies rd
    ensures rd.trace == old(rd.trace) + RingEdges(x, y, w, h, r, i)
    ensures rd.State() == old(rd.State())
  {
    Line(rd, x + r, y + i, x + w - r, y + i);
    Line(rd, x + r, y + h - i, x + w - r, y + h - i);
    Line(rd, x + i, y + r, x + i, y + h - r);
    Line(rd, x + w - i, y + r, x + w - i, y + h - r);
  }

  /** The four arcs of a ring. */
  method DrawRingArcs(rd: Renderer, x: int, y: int, w: int, h: int, r: int, i: int)
    modifies rd
    ensures rd.trace == old(rd.trace) + RingArcs(x, y, w, h, r, i)
    ensures rd.State() == old(rd.State())
  {
    ghost var t0 := rd.trace;
    ghost var a1 := Arc(x + r, y + r, r - i, TopLeft);
    ghost var a2 := Arc(x + w - r, y + r, r - i, TopRight);
    ghost var a3 := Arc(x + r, y + h - r, r - i, BottomLeft);
    ghost var a4 := Arc(x + w - r, y + h - r, r - i, BottomRight);
    DrawArc(rd, x + r, y + r, r - i, TopLeft);
    DrawArc(rd, x + w - r, y + r, r - i, TopRight);
    Assoc(t0, a1, a2);
    DrawArc(rd, x + r, y + h - r, r - i, BottomLeft);
    Assoc(t0, a1 + a2, a3);
    DrawArc(rd, x + w - r, y + h - r, r - i, BottomRight);
    Assoc(t0, a1 + a2 + a3, a4);
  }

  /** One pass of the border loop: four edges and four corner arcs. */
  method DrawRoundRing(rd: Renderer, x: int, y: int, w: int, h: int, r: int, i: int)
    modifies rd
    ensures rd.trace == old(rd.trace) + RoundRing(x, y, w, h, r, i)
    ensures rd.State() == old(rd.State())
  {
    DrawRingEdges(rd, x, y, w, h, r, i);
    DrawRingArcs(rd, x, y, w, h, r, i);
    Assoc(old(rd.trace), RingEdges(x, y, w, h, r, i), RingArcs(x, y, w, h, r, i));
  }

  /** The border loop: rings 0 .. t-1. */
  method DrawRoundRings(rd: Renderer, x: int, y: int, w: int, h: int, r: int, t: int)
    modifies rd
    ensures rd.trace == old(rd.trace) + RoundRings(x, y, w, h, r, t)
    ensures rd.State() == old(rd.State())
  {
    var i := 0;
    while i < t
      invariant 0 <= i && (i <= t || i == 0)
      invariant rd.State() == old(rd.State())
      invariant rd.trace == old(rd.trace) + RoundRings(x, y, w, h, r, i)
    {
      assert RoundRings(x, y, w, h, r, i + 1) == RoundRings(x, y, w, h, r, i) + RoundRing(x, y, w, h, r, i);
      Assoc(old(rd.trace), RoundRings(x, y, w, h, r, i), RoundRing(x, y, w, h, r, i));
      DrawRoundRing(rd, x, y, w, h, r, i);
      i := i + 1;
    }
  }

  /** The placed rounded rectangle: fill, border colour, rings. */
  method DrawRoundBody(rd: Renderer, x: int, y: int, w: int, h: int, r: int, t: int, fill: Color, border: Color)
    modifies rd
    ensures rd.trace == old(rd.trace) + RoundBody(x, y, w, h, r, t, fill, border)
    ensures rd.color == border
    ensures rd.clip == old(rd.clip) && rd.viewport == old(rd.viewport) && rd.target == old(rd.target)
  {
    ghost var t0 := rd.trace;
    ghost var head := if !IsNull(fill) && w != 0 && h != 0 then [SetDrawColor(fill)] + RoundFill(x, y, w, h, r, t) else [];
    if !IsNull(fill) && w != 0 && h != 0 {
      SetColor(rd, fill);
      DrawRoundFill(rd, x, y, w, h, r, t);
    }
    assert rd.trace == t0 + head;
    SetColor(rd, border);
    Assoc(t0, head, [SetDrawColor(border)]);
    DrawRoundRings(rd, x, y, w, h, r, t);
    Assoc(t0, head + [SetDrawColor(border)], RoundRings(x, y, w, h, r, t));
  }

  /** round_rectangle_shape::draw as the source has it. */
  method DrawRoundRectangleAsWritten(rd: Renderer, s: Shape, portion: Rect, location: Rect, vars: Variables, host: Host)
    requires s.RoundRectangleShape?
    modifies rd
    ensures rd.trace == old(rd.trace)
      + RoundRectangleAsWritten(ShapeRects(s.bounds, portion, vars, host), location, Eval(s.radius, vars, host.ints),
                                s.borderThickness, Eval(s.fillColor, vars, host.colors), Eval(s.borderColor, vars, host.colors))
    ensures rd.color == Eval(s.borderColor, vars, host.colors)
    ensures rd.clip == old(rd.clip) && rd.viewport == old(rd.viewport) && rd.target == old(rd.target)
  {
    var rects := ShapeRects(s.bounds, portion, vars, host);
    var x := location.x + rects.unclippedAroundViewport.x;
    var y := location.y + rects.unclippedAroundViewport.y;
    var w := rects.unclippedAroundViewport.w;
    var h := rects.unclippedAroundViewport.h;
    var r := Eval(s.radius, vars, host.ints);
    var fill := Eval(s.fillColor, vars, host.colors);
    var border := Eval(s.borderColor, vars, host.colors);
    DrawRoundBody(rd, x, y, w, h, r, s.borderThickness, fill, border);
  }

  /** round_rectangle_shape::draw, returning early for a shape outside the view. */
  method DrawRoundRectangleShape(rd: Renderer, s: Shape, portion: Rect, location: Rect, vars: Variables, host: Host)
    requires s.RoundRectangleShape?
    modifies rd
    ensures rd.trace == old(rd.trace)
      + RoundRectangleCalls(ShapeRects(s.bounds, portion, vars, host), location, Eval(s.radius, vars, host.ints),
                            s.borderThickness, Eval(s.fillColor, vars, host.colors), Eval(s.borderColor, vars, host.colors))
    ensures rd.color == if ShapeRects(s.bounds, portion, vars, host).empty then old(rd.color) else Eval(s.borderColor, vars, host.colors)
    ensures rd.clip == old(rd.clip) && rd.viewport == old(rd.viewport) && rd.target == old(rd.target)
  {
    var rects := ShapeRects(s.bounds, portion, vars, host);
    if rects.empty {
      return;
    }
    DrawRoundRectangleAsWritten(rd, s, portion, location, vars, host);
  }

  /*********/
  /* image */
  /*********/

  /** What image_shape::draw settles on before it draws: nothing (the name formula gave
      no name, or no image has that name), a refusal by dimension_validation, or the
      texture placed at dst with the resize mode and mirroring to draw it with. */
  datatype ImagePlan =
    | NotDrawn
    | Refused(message: string)
    | Placed(tex: Texture, dst: Rect, mode: ResizeMode, mirror: bool)

  /** The variables the size formulas see: the shape's, plus the texture's own size. */
  function OriginalVariables(vars: Variables, tex: Texture): Variables
    requires tex.Texture?
  {
    vars["image_original_width" := IntVariant(tex.w)]["image_original_height" := IntVariant(tex.h)]
  }

  /** The variables the position formulas see: the size ones, plus the size the image
      is drawn at (a zero width or height standing for the texture's own). */
  function SizedVariables(vars: Variables, tex: Texture, w: int, h: int): Variables
    requires tex.Texture?
  {
    OriginalVariables(vars, tex)
      ["image_width" := IntVariant(if w != 0 then w else tex.w)]
      ["image_height" := IntVariant(if h != 0 then h else tex.h)]
  }

  /** The placement image_shape::draw computes. A placed image has a real texture and
      a destination of positive size; a refusal carries the validation's message. */
  function ImagePlacement(s: Shape, location: Rect, vars: Variables, host: Host): (p: ImagePlan)
    requires s.ImageShape?
    ensures p.Placed? ==> p.tex.Texture? && p.tex.Valid() && p.dst.w > 0 && p.dst.h > 0
    ensures p.Placed? ==> p.mode == s.resizeMode && p.mirror == Eval(s.mirror, vars, host.flags)
    ensures p.Refused? ==> p.message == "Image doesn't fit on canvas."
  {
    var name := Eval(s.name, vars, host.strings);
    if name == "" then NotDrawn
    else
      var tex := host.textures(name, QualityFor(s.resizeMode));
      if tex.NullTexture? then NotDrawn
      else
        var w := Eval<Int32>(s.w, OriginalVariables(vars, tex), host.ints);
        var h := Eval<Int32>(s.h, OriginalVariables(vars, tex), host.ints);
        if w < 0 || h < 0 then Refused("Image doesn't fit on canvas.")
        else
          var sized := SizedVariables(vars, tex, w, h);
          var x := Eval<Int32>(s.x, sized, host.ints) + location.x;
          var y := Eval<Int32>(s.y, sized, host.ints) + location.y;
          Placed(tex, Rect(x, y, if w != 0 then w else tex.w, if h != 0 then h else tex.h),
                 s.resizeMode, Eval(s.mirror, vars, host.flags))
  }

  /** Which of the three outcomes image_shape::draw reaches, and why: nothing is drawn
      exactly when the name is empty or names no image; the image is refused exactly
      when it was found but a size formula gave a negative value; otherwise it is
      placed with that texture, its widget-space position shifted by the draw location,
      and its size the formulas' or, where they gave zero, the texture's. */
  lemma ImagePlacementCases(s: Shape, location: Rect, vars: Variables, host: Host)
    requires s.ImageShape?
    ensures var name := Eval(s.name, vars, host.strings);
      var tex := host.textures(name, QualityFor(s.resizeMode));
      var p := ImagePlacement(s, location, vars, host);
      && (p.NotDrawn? <==> name == "" || tex.NullTexture?)
      && (p.Refused? <==>
            && name != "" && tex.Texture?
            && (Eval<Int32>(s.w, OriginalVariables(vars, tex), host.ints) < 0 || Eval<Int32>(s.h, OriginalVariables(vars, tex), host.ints) < 0))
      && (p.Placed? ==>
           var w := Eval<Int32>(s.w, OriginalVariables(vars, tex), host.ints);
           var h := Eval<Int32>(s.h, OriginalVariables(vars, tex), host.ints);
           var sized := SizedVariables(vars, tex, w, h);
           && p.tex == tex
           && p.dst.x - location.x == Eval<Int32>(s.x, sized, host.ints)
           && p.dst.y - location.y == Eval<Int32>(s.y, sized, host.ints)
           && (w == 0 ==> p.dst.w == tex.w) && (w > 0 ==> p.dst.w == w)
           && (h == 0 ==> p.dst.h == tex.h) && (h > 0 ==> p.dst.h == h))
  {
  }

  /** The calls a plan leads to, given whether a renderer is present and the clip the
      drawing code observes: the tiling modes draw inside a clip reduced to the
      destination and then put the clip back, the scaling modes copy the whole texture
      into the destination, mirrored horizontally when asked. */
  function ImageCalls(p: ImagePlan, present: bool, clip: Rect): seq<Call>
    requires p.Placed? ==> p.tex.Texture? && p.tex.Valid()
  {
    if !p.Placed? then []
    else if p.mode.Tile? || p.mode.TileCenter? then
      ForceCalls(present, SetClipRect(ReducedClip(clip, p.dst)))
        + TileCalls(TilePlan(p.dst, p.tex.w, p.tex.h, p.mode.TileCenter?), p.tex, p.mirror)
        + ForceCalls(present, SetClipRect(clip))
    else if p.mode.TileHighres? then
      ForceCalls(present, SetClipRect(ReducedClip(clip, p.dst)))
        + [CopyTiledHighres(p.tex, p.dst, false, p.mirror)]
        + ForceCalls(present, SetClipRect(clip))
    else if p.mirror then [CopyEx(p.tex, None, Some(p.dst), GetFlip(true, false))]
    else [Copy(p.tex, None, Some(p.dst))]
  }

  /** A scaled image is one copy of the whole texture stretched over its destination,
      flipped horizontally (and only horizontally) exactly when the shape is mirrored. */
  lemma ImageScaled(p: ImagePlan, present: bool, clip: Rect)
    requires p.Placed? && p.tex.Texture? && p.tex.Valid()
    requires p.mode.Scale? || p.mode.ScaleSharp? || p.mode.Stretch?
    ensures var calls := ImageCalls(p, present, clip);
      && |calls| == 1
      && (calls[0].Copy? || calls[0].CopyEx?)
      && calls[0].tex == p.tex && calls[0].src == None && calls[0].dst == Some(p.dst)
      && (calls[0].CopyEx? <==> p.mirror)
      && (calls[0].CopyEx? ==> calls[0].flip & FlipHorizontal != 0 && calls[0].flip & FlipVertical == 0)
  {
  }

  /** A tiled image, with a renderer present, opens with a clip that lets through no
      pixel outside the destination and closes by setting back the clip it found. */
  lemma ImageTiledClip(p: ImagePlan, clip: Rect)
    requires p.Placed? && p.tex.Texture? && p.tex.Valid()
    requires p.mode.Tile? || p.mode.TileCenter? || p.mode.TileHighres?
    ensures var calls := ImageCalls(p, true, clip);
      && |calls| >= 2
      && calls[0].SetClipRect? && calls[|calls| - 1] == SetClipRect(clip)
      && forall px, py :: Contains(calls[0].clip, px, py) ==> Contains(p.dst, px, py)
  {
    var calls := ImageCalls(p, true, clip);
    assert calls[0] == SetClipRect(ReducedClip(clip, p.dst));
  }

  /** Tile copies set no colour. */
  lemma {:induction false} TileCallsKeepColor(tiles: seq<Tile>, tex: Texture, mirrored: bool)
    ensures KeepsColor(TileCalls(tiles, tex, mirrored))
    decreases |tiles|
  {
    if tiles != [] {
      TileCallsKeepColor(tiles[1..], tex, mirrored);
      KeepsColorAppend([TileCall(tiles[0], tex, mirrored)], TileCalls(tiles[1..], tex, mirrored));
    }
  }

  /** Drawing an image sets no colour: it only copies and clips. */
  lemma ImageCallsKeepColor(p: ImagePlan, present: bool, clip: Rect)
    requires p.Placed? ==> p.tex.Texture? && p.tex.Valid()
    ensures KeepsColor(ImageCalls(p, present, clip))
  {
    if p.Placed? && (p.mode.Tile? || p.mode.TileCenter? || p.mode.TileHighres?) {
      var open := ForceCalls(present, SetClipRect(ReducedClip(clip, p.dst)));
      var close := ForceCalls(present, SetClipRect(clip));
      var middle := if p.mode.TileHighres? then [CopyTiledHighres(p.tex, p.dst, false, p.mirror)]
                    else TileCalls(TilePlan(p.dst, p.tex.w, p.tex.h, p.mode.TileCenter?), p.tex, p.mirror);
      if !p.mode.TileHighres? {
        TileCallsKeepColor(TilePlan(p.dst, p.tex.w, p.tex.h, p.mode.TileCenter?), p.tex, p.mirror);
      }
      KeepsColorAppend(open, middle);
      KeepsColorAppend(open + middle, close);
    }
  }

  /** The outcome and calls of drawing an image with this plan. */
  function ImageDrawn(p: ImagePlan, present: bool, clip: Rect): (d: Drawn)
    requires p.Placed? ==> p.tex.Texture? && p.tex.Valid()
    ensures d.outcome.Fail? <==> p.Refused?
    ensures d.outcome.Fail? ==> d.calls == [] && d.outcome.message == p.message
  {
    Drawn(if p.Refused? then Fail(p.message) else Pass, ImageCalls(p, present, clip))
  }

  /** The first half of image_shape::draw: find the texture, validate the size and
      work out where the image goes. */
  method PlaceImage(s: Shape, location: Rect, vars: Variables, host: Host) returns (p: ImagePlan)
    requires s.ImageShape?
    ensures p == ImagePlacement(s, location, vars, host)
  {
    var name := Eval(s.name, vars, host.strings);
    if name == "" {
      return NotDrawn;
    }
    var tex := host.textures(name, QualityFor(s.resizeMode));
    if tex.NullTexture? {
      return NotDrawn;
    }
    var local := OriginalVariables(vars, tex);
    var w: int := Eval<Int32>(s.w, local, host.ints);
    DimensionValidationOfInt(w);
    var outcome := DimensionValidation(ToUnsigned(w));
    if outcome.Fail? {
      return Refused(outcome.message);
    }
    var h: int := Eval<Int32>(s.h, local, host.ints);
    DimensionValidationOfInt(h);
    outcome := DimensionValidation(ToUnsigned(h));
    if outcome.Fail? {
      return Refused(outcome.message);
    }
    local := SizedVariables(vars, tex, w, h);
    var clipX := ToUnsigned(Eval<Int32>(s.x, local, host.ints));
    var clipY := ToUnsigned(Eval<Int32>(s.y, local, host.ints));
    if w == 0 {
      w := tex.w;
    }
    if h == 0 {
      h := tex.h;
    }
    var x := ToSigned(clipX) + location.x;
    var y := ToSigned(clipY) + location.y;
    p := Placed(tex, Rect(x, y, w, h), s.resizeMode, Eval(s.mirror, vars, host.flags));
  }

  /** The tiling cases of image_shape::draw's switch on the resize mode. */
  method DrawTiledImage(rd: Renderer, p: ImagePlan)
    requires p.Placed? && p.tex.Texture? && p.tex.Valid()
    requires p.mode.Tile? || p.mode.TileCenter?
    modifies rd
    ensures rd.trace == old(rd.trace) + ImageCalls(p, rd.present, old(GetClip(rd)))
    ensures GetClip(rd) == old(GetClip(rd))
    ensures rd.color == old(rd.color) && rd.viewport == old(rd.viewport) && rd.target == old(rd.target)
  {
    Tiled(rd, p.tex, p.dst, p.mode.TileCenter?, p.mirror);
  }

  /** The second half of image_shape::draw: the switch on the resize mode. */
  method DrawPlacedImage(rd: Renderer, p: ImagePlan)
    requires p.Placed? && p.tex.Texture? && p.tex.Valid()
    modifies rd
    ensures rd.trace == old(rd.trace) + ImageCalls(p, rd.present, old(GetClip(rd)))
    ensures GetClip(rd) == old(GetClip(rd))
    ensures rd.color == old(rd.color) && rd.viewport == old(rd.viewport) && rd.target == old(rd.target)
  {
    match p.mode
    case Tile =>
      DrawTiledImage(rd, p);
    case TileCenter =>
      DrawTiledImage(rd, p);
    case TileHighres =>
      TiledHighres(rd, p.tex, p.dst, false, p.mirror);
    case _ =>
      if p.mirror {
        Flipped(rd, p.tex, p.dst, true, false);
      } else {
        Blit(rd, p.tex, p.dst);
      }
  }

  /** image_shape::draw. The clip the drawing code observes is the same afterwards. */
  method DrawImageShape(rd: Renderer, s: Shape, portion: Rect, location: Rect, vars: Variables, host: Host)
    returns (outcome: Outcome)
    requires s.ImageShape?
    modifies rd
    ensures var d := ImageDrawn(ImagePlacement(s, location, vars, host), rd.present, old(GetClip(rd)));
      rd.trace == old(rd.trace) + d.calls && outcome == d.outcome
    ensures GetClip(rd) == old(GetClip(rd))
    ensures rd.color == old(rd.color) && rd.viewport == old(rd.viewport) && rd.target == old(rd.target)
  {
    var p := PlaceImage(s, location, vars, host);
    outcome := if p.Refused? then Fail(p.message) else Pass;
    if p.Placed? {
      DrawPlacedImage(rd, p);
    }
  }

  /************/
  /* dispatch */
  /************/

  /** What drawing one shape produces, given whether a renderer is present and the clip
      the drawing code observes. Text is not modelled and draws nothing here; only an
      image can fail; the rounded rectangle is drawn as corrected (see
      RoundRectangleCalls): nothing outside the view, the source's calls inside it. */
  function ShapeDrawn(s: Shape, portion: Rect, location: Rect, vars: Variables, host: Host,
                      present: bool, clip: Rect): (d: Drawn)
    ensures s.TextShape? ==> d == Drawn(Pass, [])
    ensures !s.ImageShape? ==> d.outcome.Pass?
    ensures s.RoundRectangleShape? && ShapeRects(s.bounds, portion, vars, host).empty ==> d.calls == []
    ensures s.RoundRectangleShape? && !ShapeRects(s.bounds, portion, vars, host).empty ==>
      d.calls == RoundRectangleAsWritten(ShapeRects(s.bounds, portion, vars, host), location, Eval(s.radius, vars, host.ints),
                                         s.borderThickness, Eval(s.fillColor, vars, host.colors), Eval(s.borderColor, vars, host.colors))
    ensures s.ImageShape? ==> d == ImageDrawn(ImagePlacement(s, location, vars, host), present, clip)
  {
    if s.LineShape? then Drawn(Pass, LineCalls(s, portion, location, vars, host))
    else if s.RectangleShape? then
      Drawn(Pass, RectangleCalls(ShapeRects(s.bounds, portion, vars, host), location, s.borderThickness,
                                 Eval(s.fillColor, vars, host.colors), Eval(s.borderColor, vars, host.colors)))
    else if s.RoundRectangleShape? then
      Drawn(Pass, RoundRectangleCalls(ShapeRects(s.bounds, portion, vars, host), location, Eval(s.radius, vars, host.ints),
                                      s.borderThickness, Eval(s.fillColor, vars, host.colors), Eval(s.borderColor, vars, host.colors)))
    else if s.CircleShape? then
      Drawn(Pass, CircleCalls(CircleCentre(Eval<Int32>(s.x, vars, host.ints), location.x, portion.x),
                              CircleCentre(Eval<Int32>(s.y, vars, host.ints), location.y, portion.y),
                              ToUnsigned(Eval(s.radius, vars, host.ints)), s.rings,
                              Eval(s.fillColor, vars, host.colors), Eval(s.borderColor, vars, host.colors)))
    else if s.ImageShape? then ImageDrawn(ImagePlacement(s, location, vars, host), present, clip)
    else Drawn(Pass, [])
  }

  /** Only an image can fail to draw, only through dimension_validation, and a shape
      that fails has issued no call. */
  lemma OnlyImagesFail(s: Shape, portion: Rect, location: Rect, vars: Variables, host: Host, present: bool, clip: Rect)
    ensures var d := ShapeDrawn(s, portion, location, vars, host, present, clip);
      d.outcome.Fail? <==> s.ImageShape? && ImagePlacement(s, location, vars, host).Refused?
    ensures var d := ShapeDrawn(s, portion, location, vars, host, present, clip);
      d.outcome.Fail? ==> d.calls == [] && d.outcome.message == "Image doesn't fit on canvas."
  {
  }

  /** The draw colour a shape leaves behind, starting from colour c: a line's colour;
      for a rectangle (rounded or not) the colour it found when it lies outside the
      view, else its border colour; for a circle the border colour when it has a ring,
      else the fill colour when it fills, else the colour it found; an image or a text
      leaves the colour it found. */
  lemma ShapeDrawnColor(c: Color, s: Shape, portion: Rect, location: Rect, vars: Variables, host: Host, present: bool, clip: Rect)
    ensures var after := ColorAfter(c, ShapeDrawn(s, portion, location, vars, host, present, clip).calls);
      && (s.LineShape? ==> after == Eval(s.color, vars, host.colors))
      && (s.RectangleShape? || s.RoundRectangleShape? ==>
            after == if ShapeRects(s.bounds, portion, vars, host).empty then c else Eval(s.borderColor, vars, host.colors))
      && (s.CircleShape? ==>
            after == if s.rings > 0 then Eval(s.borderColor, vars, host.colors)
              else if !IsNull(Eval(s.fillColor, vars, host.colors)) && ToUnsigned(Eval(s.radius, vars, host.ints)) != 0
              then Eval(s.fillColor, vars, host.colors) else c)
      && (s.ImageShape? || s.TextShape? ==> after == c)
  {
    match s
    case LineShape(_, _, _, _, _, _, _) =>
    case RectangleShape(_, _, _, _, _) =>
      RectangleColor(c, ShapeRects(s.bounds, portion, vars, host), location, s.borderThickness,
                     Eval(s.fillColor, vars, host.colors), Eval(s.borderColor, vars, host.colors));
    case RoundRectangleShape(_, _, _, _, _, _) =>
      RoundRectangleColor(c, ShapeRects(s.bounds, portion, vars, host), location, Eval(s.radius, vars, host.ints),
                          s.borderThickness, Eval(s.fillColor, vars, host.colors), Eval(s.borderColor, vars, host.colors));
    case CircleShape(_, _, _, _, _, _, _) =>
      CircleShapeColor(c, CircleCentre(Eval<Int32>(s.x, vars, host.ints), location.x, portion.x),
                       CircleCentre(Eval<Int32>(s.y, vars, host.ints), location.y, portion.y),
                       ToUnsigned(Eval(s.radius, vars, host.ints)), s.rings,
                       Eval(s.fillColor, vars, host.colors), Eval(s.borderColor, vars, host.colors));
    case ImageShape(_, _, _, _, _, _, _, _) =>
      var p := ImagePlacement(s, location, vars, host);
      ImageCallsKeepColor(p, present, clip);
      ColorKept(c, ImageCalls(p, present, clip));
    case TextShape(_, _, _, _) =>
  }

  /** shape::draw, dispatched on the kind of shape. */
  method DrawShape(rd: Renderer, s: Shape, portion: Rect, location: Rect, vars: Variables, host: Host)
    returns (outcome: Outcome)
    modifies rd
    ensures var d := ShapeDrawn(s, portion, location, vars, host, rd.present, old(GetClip(rd)));
      rd.trace == old(rd.trace) + d.calls && outcome == d.outcome
    ensures rd.color == ColorAfter(old(rd.color), ShapeDrawn(s, portion, location, vars, host, rd.present, old(GetClip(rd))).calls)
    ensures GetClip(rd) == old(GetClip(rd)) && rd.viewport == old(rd.viewport) && rd.target == old(rd.target)
  {
    ShapeDrawnColor(rd.color, s, portion, location, vars, host, rd.present, GetClip(rd));
    outcome := Pass;
    match s
    case LineShape(_, _, _, _, _, _, _) =>
      DrawLineShape(rd, s, portion, location, vars, host);
    case RectangleShape(_, _, _, _, _) =>
      DrawRectangleShape(rd, s, portion, location, vars, host);
    case RoundRectangleShape(_, _, _, _, _, _) =>
      DrawRoundRectangleShape(rd, s, portion, location, vars, host);
    case CircleShape(_, _, _, _, _, _, _) =>
      DrawCircleShape(rd, s, portion, location, vars, host);
    case ImageShape(_, _, _, _, _, _, _, _) =>
      outcome := DrawImageShape(rd, s, portion, location, vars, host);
    case TextShape(_, _, _, _) =>
  }
}
