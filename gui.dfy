/** The GUI canvas: the shapes a widget is drawn with, the size it is drawn at, the
    variables its formulas see and the cached blurred background, with the operations
    that draw it, read its configuration and change it. */
module Gui {
  import opened Wrappers
  import opened Geometry
  import opened Render
  import opened Draw
  import opened Shapes
  import opened ShapeDraw

  /*****************/
  /* drawing shapes */
  /*****************/

  /** Everything a shape's draw routine depends on besides the shape: the part of the
      widget to draw, where the widget goes, the formula variables and host, whether a
      renderer is present and the clip the drawing code observes. */
  datatype Scene = Scene(area: Rect, location: Rect, vars: Variables, host: Host, present: bool, clip: Rect)

  /** Drawing a shape in scene sc. */
  function Painter(sc: Scene): Shape -> Drawn
  {
    s => ShapeDrawn(s, sc.area, sc.location, sc.vars, sc.host, sc.present, sc.clip)
  }

  /** The first n shapes drawn one after the other, as canvas::draw's loop goes: a
      shape whose validation fails ends the drawing (the exception leaves the loop). */
  function ShapesDrawn(shapes: seq<Shape>, n: nat, paint: Shape -> Drawn): Drawn
    requires n <= |shapes|
  {
    if n == 0 then Drawn(Pass, [])
    else
      var before := ShapesDrawn(shapes, n - 1, paint);
      if before.outcome.Fail? then before
      else
        var d := paint(shapes[n - 1]);
        Drawn(d.outcome, before.calls + d.calls)
  }

  /** One more shape after shapes that all got drawn. */
  lemma ShapesDrawnStep(shapes: seq<Shape>, i: nat, paint: Shape -> Drawn)
    requires i < |shapes| && ShapesDrawn(shapes, i, paint).outcome.Pass?
    ensures ShapesDrawn(shapes, i + 1, paint) ==
      Drawn(paint(shapes[i]).outcome, ShapesDrawn(shapes, i, paint).calls + paint(shapes[i]).calls)
  {
  }

  /** Drawing a list of shapes defined from the front: the first shape, then, unless it
      failed, the rest. */
  function DrawnInOrder(shapes: seq<Shape>, paint: Shape -> Drawn): Drawn
  {
    if shapes == [] then Drawn(Pass, [])
    else
      var first := paint(shapes[0]);
      if first.outcome.Fail? then first
      else
        var rest := DrawnInOrder(shapes[1..], paint);
        Drawn(rest.outcome, first.calls + rest.calls)
  }

  /** Drawing one more shape after a list, in the front-first definition. */
  lemma {:induction false} DrawnInOrderSnoc(shapes: seq<Shape>, s: Shape, paint: Shape -> Drawn)
    ensures var before := DrawnInOrder(shapes, paint);
      var d := paint(s);
      DrawnInOrder(shapes + [s], paint) ==
        if before.outcome.Fail? then before else Drawn(d.outcome, before.calls + d.calls)
  {
    if shapes == [] {
      assert [s][1..] == [];
    } else {
      assert (shapes + [s])[1..] == shapes[1..] + [s];
      DrawnInOrderSnoc(shapes[1..], s, paint);
      var first := paint(shapes[0]);
      if !first.outcome.Fail? {
        var rest := DrawnInOrder(shapes[1..], paint);
        var d := paint(s);
        assert first.calls + (rest.calls + d.calls) == first.calls + rest.calls + d.calls;
      }
    }
  }

  /** The loop's left-to-right drawing agrees with the front-first definition. */
  lemma {:induction false} ShapesDrawnInOrder(shapes: seq<Shape>, n: nat, paint: Shape -> Drawn)
    requires n <= |shapes|
    ensures ShapesDrawn(shapes, n, paint) == DrawnInOrder(shapes[..n], paint)
  {
    if n > 0 {
      ShapesDrawnInOrder(shapes, n - 1, paint);
      assert shapes[..n] == shapes[..n - 1] + [shapes[n - 1]];
      DrawnInOrderSnoc(shapes[..n - 1], shapes[n - 1], paint);
    }
  }

  /** Once a shape has failed, drawing more shapes changes nothing. */
  lemma {:induction false} FailSticks(shapes: seq<Shape>, k: nat, n: nat, paint: Shape -> Drawn)
    requires k <= n <= |shapes|
    requires ShapesDrawn(shapes, k, paint).outcome.Fail?
    ensures ShapesDrawn(shapes, n, paint) == ShapesDrawn(shapes, k, paint)
  {
    if n > k {
      FailSticks(shapes, k, n - 1, paint);
    }
  }

  /** Drawing gets through n shapes exactly when none of them fails. */
  lemma {:induction false} ShapesDrawnPass(shapes: seq<Shape>, n: nat, paint: Shape -> Drawn)
    requires n <= |shapes|
    ensures ShapesDrawn(shapes, n, paint).outcome.Pass? <==> forall k :: 0 <= k < n ==> paint(shapes[k]).outcome.Pass?
  {
    if n > 0 {
      ShapesDrawnPass(shapes, n - 1, paint);
    }
  }

  /** The first shape to fail ends the drawing with its outcome: the calls are those of
      the shapes before it and its own, and no shape after it is drawn. */
  lemma ShapesDrawnStops(shapes: seq<Shape>, k: nat, paint: Shape -> Drawn)
    requires k < |shapes|
    requires forall j :: 0 <= j < k ==> paint(shapes[j]).outcome.Pass?
    requires paint(shapes[k]).outcome.Fail?
    ensures ShapesDrawn(shapes, |shapes|, paint) ==
      Drawn(paint(shapes[k]).outcome, ShapesDrawn(shapes, k, paint).calls + paint(shapes[k]).calls)
  {
    ShapesDrawnPass(shapes, k, paint);
    FailSticks(shapes, k + 1, |shapes|, paint);
  }

  /** On a canvas, drawing fails only at an image whose size was refused, with
      dimension_validation's message. */
  lemma {:induction false} CanvasFailsOnImages(shapes: seq<Shape>, n: nat, sc: Scene)
    requires n <= |shapes|
    ensures var d := ShapesDrawn(shapes, n, Painter(sc));
      d.outcome.Fail? ==>
        && d.outcome == Fail("Image doesn't fit on canvas.")
        && exists k :: 0 <= k < n && shapes[k].ImageShape? && ImagePlacement(shapes[k], sc.location, sc.vars, sc.host).Refused?
  {
    if n > 0 {
      CanvasFailsOnImages(shapes, n - 1, sc);
      var s := shapes[n - 1];
      assert Painter(sc)(s) == ShapeDrawn(s, sc.area, sc.location, sc.vars, sc.host, sc.present, sc.clip);
      OnlyImagesFail(s, sc.area, sc.location, sc.vars, sc.host, sc.present, sc.clip);
    }
  }

  /** canvas::draw's background: the cached blurred texture, the part `area` of it copied
      to `location`, when blurring is asked for and the texture exists. */
  function Background(blurDepth: int, blurTexture: Texture, area: Rect, location: Rect): seq<Call>
  {
    if blurDepth != 0 && blurTexture.Texture? then [Copy(blurTexture, Some(area), Some(location))] else []
  }

  /** What one more pass of the loop adds, for a trace that started at t0 with colour
      c0: the shape's calls after the earlier ones, its outcome, and the colour its
      calls leave after the earlier ones'. */
  lemma DrawLoopStep(shapes: seq<Shape>, i: nat, paint: Shape -> Drawn, t0: seq<Call>, c0: Color)
    requires i < |shapes| && ShapesDrawn(shapes, i, paint).outcome.Pass?
    ensures t0 + ShapesDrawn(shapes, i + 1, paint).calls == t0 + ShapesDrawn(shapes, i, paint).calls + paint(shapes[i]).calls
    ensures ShapesDrawn(shapes, i + 1, paint).outcome == paint(shapes[i]).outcome
    ensures ColorAfter(c0, ShapesDrawn(shapes, i + 1, paint).calls)
         == ColorAfter(ColorAfter(c0, ShapesDrawn(shapes, i, paint).calls), paint(shapes[i]).calls)
  {
    ShapesDrawnStep(shapes, i, paint);
    Assoc(t0, ShapesDrawn(shapes, i, paint).calls, paint(shapes[i]).calls);
    ColorAfterAppend(c0, ShapesDrawn(shapes, i, paint).calls, paint(shapes[i]).calls);
  }

  /** The renderer after the first i shapes of canvas::draw's loop in scene sc, on a
      trace that started at t0 with colour c0 and in the clip, viewport and target the
      loop started with. */
  ghost predicate DrawnSoFar(rd: Renderer, shapes: seq<Shape>, i: nat, sc: Scene, t0: seq<Call>, c0: Color,
                             viewport: Rect, target: Texture)
    reads rd
    requires i <= |shapes|
  {
    && rd.trace == t0 + ShapesDrawn(shapes, i, Painter(sc)).calls
    && rd.color == ColorAfter(c0, ShapesDrawn(shapes, i, Painter(sc)).calls)
    && sc.present == rd.present && sc.clip == GetClip(rd)
    && rd.viewport == viewport && rd.target == target
  }

  /** One pass of canvas::draw's loop: the shape after the first i drawn. */
  method DrawNext(rd: Renderer, shapes: seq<Shape>, i: nat, sc: Scene, ghost t0: seq<Call>, ghost c0: Color,
                  ghost viewport: Rect, ghost target: Texture)
    returns (outcome: Outcome)
    requires i < |shapes| && ShapesDrawn(shapes, i, Painter(sc)).outcome.Pass?
    requires DrawnSoFar(rd, shapes, i, sc, t0, c0, viewport, target)
    modifies rd
    ensures DrawnSoFar(rd, shapes, i + 1, sc, t0, c0, viewport, target)
    ensures outcome == ShapesDrawn(shapes, i + 1, Painter(sc)).outcome
  {
    DrawLoopStep(shapes, i, Painter(sc), t0, c0);
    outcome := DrawShape(rd, shapes[i], sc.area, sc.location, sc.vars, sc.host);
  }

  /** canvas::draw's loop over the shapes, stopped by the first failure. */
  method DrawShapes(rd: Renderer, shapes: seq<Shape>, sc: Scene) returns (outcome: Outcome)
    requires sc.present == rd.present && sc.clip == GetClip(rd)
    modifies rd
    ensures rd.trace == old(rd.trace) + ShapesDrawn(shapes, |shapes|, Painter(sc)).calls
    ensures outcome == ShapesDrawn(shapes, |shapes|, Painter(sc)).outcome
    ensures rd.color == ColorAfter(old(rd.color), ShapesDrawn(shapes, |shapes|, Painter(sc)).calls)
    ensures GetClip(rd) == old(GetClip(rd)) && rd.viewport == old(rd.viewport) && rd.target == old(rd.target)
  {
    ghost var t0, c0, viewport, target := rd.trace, rd.color, rd.viewport, rd.target;
    outcome := Pass;
    var i := 0;
    while i < |shapes| && outcome.Pass?
      invariant 0 <= i <= |shapes|
      invariant DrawnSoFar(rd, shapes, i, sc, t0, c0, viewport, target)
      invariant outcome == ShapesDrawn(shapes, i, Painter(sc)).outcome
      decreases |shapes| - i
    {
      outcome := DrawNext(rd, shapes, i, sc, t0, c0, viewport, target);
      i := i + 1;
    }
    if outcome.Fail? {
      FailSticks(shapes, i, |shapes|, Painter(sc));
    }
  }

  /** What canvas::draw produces: the background, then the shapes in order up to the
      first failure. */
  function CanvasDrawn(blurDepth: int, blurTexture: Texture, shapes: seq<Shape>, sc: Scene): Drawn
  {
    var d := ShapesDrawn(shapes, |shapes|, Painter(sc));
    Drawn(d.outcome, Background(blurDepth, blurTexture, sc.area, sc.location) + d.calls)
  }

  /************/
  /* blitting */
  /************/

  /** canvas::blit's two validations of the rectangle it is asked to draw into, on a
      widget of size w x h. */
  function BlitCheck(rect: Rect, w: UInt32, h: UInt32): Outcome
  {
    if rect.w < 0 || rect.h < 0 then Fail("Area to draw has negative size")
    else if ToUnsigned(rect.w) > w || ToUnsigned(rect.h) > h then Fail("Area to draw is larger than widget size")
    else Pass
  }

  /** For a rectangle SDL can hold, the validations pass exactly when its size is not
      negative and fits the widget; a negative size is reported as such even when it
      would not fit either. */
  lemma BlitCheckPasses(rect: Rect, w: UInt32, h: UInt32)
    requires rect.w < 0x8000_0000 && rect.h < 0x8000_0000
    ensures BlitCheck(rect, w, h).Pass? <==> 0 <= rect.w <= w && 0 <= rect.h <= h
    ensures BlitCheck(rect, w, h) == Fail("Area to draw has negative size") <==> rect.w < 0 || rect.h < 0
  {
  }

  /** The part of the widget canvas::blit draws, in the widget's own coordinates, for a
      widget placed at `rect` on a draw area of the given size: none when the widget
      lies wholly off the area. */
  function BlitArea(rect: Rect, drawArea: Rect): Option<Rect>
  {
    var clipped := IntersectRect(rect, Rect(0, 0, drawArea.w, drawArea.h));
    if !clipped.nonEmpty then None
    else Some(Rect(Max(0, -rect.x), Max(0, -rect.y), clipped.rect.w, clipped.rect.h))
  }

  /** The area drawn is exactly the widget's pixels that land on the draw area: pixel
      (px, py) of the widget is drawn when it lies in the widget and at (rect.x + px,
      rect.y + py) on the draw area. */
  lemma BlitAreaVisible(rect: Rect, drawArea: Rect, px: int, py: int)
    ensures var a := BlitArea(rect, drawArea);
      var visible := 0 <= px < rect.w && 0 <= py < rect.h && Contains(Rect(0, 0, drawArea.w, drawArea.h), rect.x + px, rect.y + py);
      && (a.Some? ==> (Contains(a.value, px, py) <==> visible))
      && (a.None? ==> !visible)
  {
    var parent := Rect(0, 0, drawArea.w, drawArea.h);
    var clipped := IntersectRect(rect, parent);
    assert Contains(rect, rect.x + px, rect.y + py) <==> 0 <= px < rect.w && 0 <= py < rect.h;
    if clipped.nonEmpty {
      assert Contains(clipped.rect, rect.x + px, rect.y + py) <==>
        Contains(rect, rect.x + px, rect.y + py) && Contains(parent, rect.x + px, rect.y + py);
    }
  }

  /** The example in canvas::blit: a widget one column off the left edge of a
      1000 x 1000 area is clipped to {0, 2, 329, 440} on the area and draws its part
      {1, 0, 329, 440}. */
  lemma BlitAreaExample()
    ensures IntersectRect(Rect(-1, 2, 330, 440), Rect(0, 0, 1000, 1000)) == Intersection(true, Rect(0, 2, 329, 440))
    ensures BlitArea(Rect(-1, 2, 330, 440), Rect(0, 0, 1000, 1000)) == Some(Rect(1, 0, 329, 440))
  {
  }

  /** canvas::blit reaches the point where it caches the background and draws: there
      are shapes, the rectangle is valid and some of the widget is on the draw area. */
  predicate BlitDraws(shapes: seq<Shape>, w: UInt32, h: UInt32, rect: Rect, drawArea: Rect)
  {
    shapes != [] && BlitCheck(rect, w, h).Pass? && BlitArea(rect, drawArea).Some?
  }

  /** The blurred-background cache after canvas::blit: filled with the blurred pixels
      under the widget the first time a blurring canvas is drawn, kept otherwise. */
  function CachedBlur(shapes: seq<Shape>, w: UInt32, h: UInt32, rect: Rect, drawArea: Rect,
                      blurDepth: int, blurTexture: Texture, blurred: Texture): Texture
  {
    if BlitDraws(shapes, w, h, rect, drawArea) && blurDepth != 0 && blurTexture.NullTexture? then blurred
    else blurTexture
  }

  /** What canvas::blit produces, given the canvas's state once the cache is filled. */
  function BlitDrawn(shapes: seq<Shape>, w: UInt32, h: UInt32, blurDepth: int, blurTexture: Texture,
                     rect: Rect, drawArea: Rect, vars: Variables, host: Host, present: bool, clip: Rect): Drawn
  {
    if shapes == [] then Drawn(Pass, [])
    else if BlitCheck(rect, w, h).Fail? then Drawn(BlitCheck(rect, w, h), [])
    else match BlitArea(rect, drawArea)
      case None => Drawn(Pass, [])
      case Some(area) => CanvasDrawn(blurDepth, blurTexture, shapes, Scene(area, rect, vars, host, present, clip))
  }

  /** The early returns of canvas::blit: a canvas without shapes draws nothing and
      passes whatever the rectangle; a failed validation draws nothing and reports it;
      a widget wholly off the draw area draws nothing. */
  lemma BlitEarlyReturns(shapes: seq<Shape>, w: UInt32, h: UInt32, blurDepth: int, blurTexture: Texture,
                         rect: Rect, drawArea: Rect, vars: Variables, host: Host, present: bool, clip: Rect)
    ensures var d := BlitDrawn(shapes, w, h, blurDepth, blurTexture, rect, drawArea, vars, host, present, clip);
      && (shapes == [] ==> d == Drawn(Pass, []))
      && (shapes != [] && BlitCheck(rect, w, h).Fail? ==> d == Drawn(BlitCheck(rect, w, h), []))
      && (!BlitDraws(shapes, w, h, rect, drawArea) ==> d.calls == [])
      && (d.calls != [] ==> BlitDraws(shapes, w, h, rect, drawArea))
  {
  }

  /** When it draws, canvas::blit draws the whole canvas at the widget's position,
      limited to the part on the draw area, and fails only as a shape fails. */
  lemma BlitDrawsCanvas(shapes: seq<Shape>, w: UInt32, h: UInt32, blurDepth: int, blurTexture: Texture,
                        rect: Rect, drawArea: Rect, vars: Variables, host: Host, present: bool, clip: Rect)
    requires BlitDraws(shapes, w, h, rect, drawArea)
    ensures var sc := Scene(BlitArea(rect, drawArea).value, rect, vars, host, present, clip);
      var d := BlitDrawn(shapes, w, h, blurDepth, blurTexture, rect, drawArea, vars, host, present, clip);
      && d.calls == Background(blurDepth, blurTexture, sc.area, rect) + DrawnInOrder(shapes, Painter(sc)).calls
      && (d.outcome.Pass? <==> forall k :: 0 <= k < |shapes| ==> Painter(sc)(shapes[k]).outcome.Pass?)
  {
    var sc := Scene(BlitArea(rect, drawArea).value, rect, vars, host, present, clip);
    ShapesDrawnInOrder(shapes, |shapes|, Painter(sc));
    assert shapes[..|shapes|] == shapes;
    ShapesDrawnPass(shapes, |shapes|, Painter(sc));
  }

  /***********/
  /* parsing */
  /***********/

  /** The blur depth after the functions of a pre_commit child: the depth of the last
      blur function, or the current depth when there is none. */
  function BlurDepth(fns: seq<Child>, depth: int): int
  {
    if fns == [] then depth
    else
      var last := fns[|fns| - 1];
      if last.key == "blur" then ToInt(last.cfg, "depth", 0)
      else BlurDepth(fns[..|fns| - 1], depth)
  }

  /** The last blur function wins. */
  lemma {:induction false} BlurLastWins(fns: seq<Child>, depth: int, k: nat)
    requires k < |fns| && fns[k].key == "blur"
    requires forall j :: k < j < |fns| ==> fns[j].key != "blur"
    ensures BlurDepth(fns, depth) == ToInt(fns[k].cfg, "depth", 0)
  {
    if k < |fns| - 1 {
      var init := fns[..|fns| - 1];
      assert forall j :: k < j < |init| ==> init[j] == fns[j];
      BlurLastWins(init, depth, k);
    }
  }

  /** Without a blur function the depth stays. */
  lemma {:induction false} BlurKept(fns: seq<Child>, depth: int)
    requires forall j :: 0 <= j < |fns| ==> fns[j].key != "blur"
    ensures BlurDepth(fns, depth) == depth
  {
    if fns != [] {
      BlurKept(fns[..|fns| - 1], depth);
    }
  }

  /** What parse_cfg has built: the shape list, the blur depth and whether a shape's
      constructor failed (which ends the parse, keeping the shapes added before it). */
  datatype Parsed = Parsed(shapes: seq<Shape>, blurDepth: int, outcome: Outcome)

  /** parse_cfg's handling of one child. */
  function ParseChild(p: Parsed, c: Child): Parsed
  {
    match MakeShape(c.key, c.cfg)
    case Made(s) => p.(shapes := p.shapes + [s])
    case Invalid(message) => p.(outcome := Fail(message))
    case NoShape =>
      if c.key == "pre_commit" then p.(blurDepth := BlurDepth(c.cfg.children, p.blurDepth)) else p
  }

  /** parse_cfg's loop over the first n children, starting from the canvas's state
      `start` and handling each child with `step` (ParseChild for parse_cfg). */
  function ParseChildren(children: seq<Child>, n: nat, start: Parsed, step: (Parsed, Child) -> Parsed): Parsed
    requires n <= |children|
  {
    if n == 0 then start
    else
      var before := ParseChildren(children, n - 1, start, step);
      if before.outcome.Fail? then before else step(before, children[n - 1])
  }

  /** The shapes the children describe, in order: one per child with a shape tag,
      none for any other child. */
  function ShapesOf(children: seq<Child>): seq<Shape>
  {
    if children == [] then []
    else
      var made := MakeShape(children[0].key, children[0].cfg);
      (if made.Made? then [made.shape] else []) + ShapesOf(children[1..])
  }

  /** The children with a shape tag, in order. */
  function Recognised(children: seq<Child>): seq<Child>
  {
    if children == [] then []
    else (if children[0].key in ShapeKeys then [children[0]] else []) + Recognised(children[1..])
  }

  /** No child is a text whose constructor refuses it. */
  predicate AllValid(children: seq<Child>)
  {
    forall k :: 0 <= k < |children| ==> !MakeShape(children[k].key, children[k].cfg).Invalid?
  }

  /** Without a failing constructor there is one shape per recognised child, made from
      that child and in the same order. */
  lemma {:induction false} ShapesOfRecognised(children: seq<Child>)
    requires AllValid(children)
    ensures |ShapesOf(children)| == |Recognised(children)|
    ensures forall i :: 0 <= i < |ShapesOf(children)| ==>
      Made(ShapesOf(children)[i]) == MakeShape(Recognised(children)[i].key, Recognised(children)[i].cfg)
  {
    if children != [] {
      assert AllValid(children[1..]) by {
        forall k | 0 <= k < |children[1..]|
          ensures !MakeShape(children[1..][k].key, children[1..][k].cfg).Invalid?
        {
          assert children[1..][k] == children[k + 1];
        }
      }
      ShapesOfRecognised(children[1..]);
      assert !MakeShape(children[0].key, children[0].cfg).Invalid?;
    }
  }

  /** ShapesOf distributes over concatenation. */
  lemma {:induction false} ShapesOfAppend(a: seq<Child>, b: seq<Child>)
    ensures ShapesOf(a + b) == ShapesOf(a) + ShapesOf(b)
  {
    if a != [] {
      assert (a + b)[1..] == a[1..] + b;
      ShapesOfAppend(a[1..], b);
      var made := MakeShape(a[0].key, a[0].cfg);
      var first := if made.Made? then [made.shape] else [];
      assert first + (ShapesOf(a[1..]) + ShapesOf(b)) == first + ShapesOf(a[1..]) + ShapesOf(b);
    } else {
      assert a + b == b;
    }
  }

  /** Parsing children none of which fails appends exactly ShapesOf(children) and
      passes. */
  lemma {:induction false} ParseAppends(children: seq<Child>, n: nat, start: Parsed)
    requires n <= |children| && start.outcome.Pass?
    requires AllValid(children[..n])
    ensures ParseChildren(children, n, start, ParseChild).outcome.Pass?
    ensures ParseChildren(children, n, start, ParseChild).shapes == start.shapes + ShapesOf(children[..n])
  {
    if n > 0 {
      assert children[..n] == children[..n - 1] + [children[n - 1]];
      var init := children[..n - 1];
      assert AllValid(init) by {
        forall k | 0 <= k < |init|
          ensures !MakeShape(init[k].key, init[k].cfg).Invalid?
        {
          assert init[k] == children[..n][k];
        }
      }
      assert children[..n][n - 1] == children[n - 1];
      ParseAppends(children, n - 1, start);
      ShapesOfAppend(children[..n - 1], [children[n - 1]]);
      assert [children[n - 1]][1..] == [];
    }
  }

  /** A constructor failure ends the parse with its message, keeping the shapes of the
      children before it; the children after it are not read. */
  lemma ParseStops(children: seq<Child>, k: nat, start: Parsed)
    requires k < |children| && start.outcome.Pass?
    requires AllValid(children[..k])
    requires MakeShape(children[k].key, children[k].cfg).Invalid?
    ensures var p := ParseChildren(children, |children|, start, ParseChild);
      && p.outcome == Fail(MakeShape(children[k].key, children[k].cfg).message)
      && p.shapes == start.shapes + ShapesOf(children[..k])
  {
    ParseAppends(children, k, start);
    var before := ParseChildren(children, k, start, ParseChild);
    assert ParseChildren(children, k + 1, start, ParseChild) == before.(outcome := Fail(MakeShape(children[k].key, children[k].cfg).message));
    ParseFailSticks(children, k + 1, |children|, start, ParseChild);
  }

  /** Once a constructor has failed, later children change nothing. */
  lemma {:induction false} ParseFailSticks(children: seq<Child>, k: nat, n: nat, start: Parsed,
                                           step: (Parsed, Child) -> Parsed)
    requires k <= n <= |children|
    requires ParseChildren(children, k, start, step).outcome.Fail?
    ensures ParseChildren(children, n, start, step) == ParseChildren(children, k, start, step)
  {
    if n > k {
      ParseFailSticks(children, k, n - 1, start, step);
    }
  }

  /************/
  /* clearing */
  /************/

  /** The immutable shapes, in their order. */
  function Immutables(shapes: seq<Shape>): seq<Shape>
  {
    if shapes == [] then []
    else (if shapes[0].immutable then [shapes[0]] else []) + Immutables(shapes[1..])
  }

  /** Filtering a concatenation filters each part: the kept shapes stay in order. */
  lemma {:induction false} ImmutablesAppend(a: seq<Shape>, b: seq<Shape>)
    ensures Immutables(a + b) == Immutables(a) + Immutables(b)
  {
    if a != [] {
      assert (a + b)[1..] == a[1..] + b;
      ImmutablesAppend(a[1..], b);
      var first := if a[0].immutable then [a[0]] else [];
      assert first + (Immutables(a[1..]) + Immutables(b)) == first + Immutables(a[1..]) + Immutables(b);
    } else {
      assert a + b == b;
    }
  }

  /** Exactly the immutable shapes are kept, and every one of them. */
  lemma {:induction false} ImmutablesKeeps(shapes: seq<Shape>)
    ensures forall s :: s in Immutables(shapes) <==> s in shapes && s.immutable
  {
    if shapes != [] {
      ImmutablesKeeps(shapes[1..]);
      assert shapes == [shapes[0]] + shapes[1..];
    }
  }

  /** Clearing twice is clearing once, and a list of immutable shapes is kept whole. */
  lemma {:induction false} ImmutablesFixed(shapes: seq<Shape>)
    ensures (forall k :: 0 <= k < |shapes| ==> shapes[k].immutable) <==> Immutables(shapes) == shapes
    ensures Immutables(Immutables(shapes)) == Immutables(shapes)
  {
    if shapes != [] {
      ImmutablesFixed(shapes[1..]);
      ImmutablesLength(shapes[1..]);
      if !shapes[0].immutable {
        assert Immutables(shapes) == Immutables(shapes[1..]);
        assert |Immutables(shapes)| < |shapes|;
      }
      if shapes[0].immutable {
        ImmutablesAppend([shapes[0]], Immutables(shapes[1..]));
        assert [shapes[0]][1..] == [];
        assert Immutables([shapes[0]]) == [shapes[0]];
      }
    }
  }

  /** Filtering never lengthens. */
  lemma {:induction false} ImmutablesLength(shapes: seq<Shape>)
    ensures |Immutables(shapes)| <= |shapes|
  {
    if shapes != [] {
      ImmutablesLength(shapes[1..]);
    }
  }

  /**********/
  /* canvas */
  /**********/

  /** The variables after canvas::update_size_variables: the screen-size variables,
      then the canvas size, each written over what was there. */
  function SizeVariables(vars: Variables, screen: Variables, w: UInt32, h: UInt32): Variables
  {
    (vars + screen)["width" := IntVariant(ToSigned(w))]["height" := IntVariant(ToSigned(h))]
  }

  /** A size set from `int`s reads back unchanged through the `unsigned` fields, and the
      screen-size variables stay visible except where the size overwrites them. */
  lemma SizeRoundTrip(vars: Variables, screen: Variables, x: Int32, y: Int32)
    ensures var v := SizeVariables(vars, screen, ToUnsigned(x), ToUnsigned(y));
      && v["width"] == IntVariant(x) && v["height"] == IntVariant(y)
      && (forall key :: key in screen && key != "width" && key != "height" ==> key in v && v[key] == screen[key])
      && (forall key :: key in vars && key !in screen && key != "width" && key != "height" ==> key in v && v[key] == vars[key])
  {
    assert Wrap32(x) == x && Wrap32(y) == y;
  }

  class Canvas {
    var shapes: seq<Shape>
    var blurDepth: int
    var w: UInt32
    var h: UInt32
    var variables: Variables
    /** The blurred background cached by canvas::blit. */
    var blurTexture: Texture

    /** canvas::canvas(): no shapes, no blur, size zero. */
    constructor ()
      ensures shapes == [] && blurDepth == 0 && w == 0 && h == 0
      ensures variables == map[] && blurTexture == NullTexture
    {
      shapes := [];
      blurDepth := 0;
      w := 0;
      h := 0;
      variables := map[];
      blurTexture := NullTexture;
    }

    /** The move constructor: takes everything but the blurred-background cache, which
        the new canvas builds again when first drawn. */
    constructor Moved(c: Canvas)
      ensures shapes == c.shapes && blurDepth == c.blurDepth && w == c.w && h == c.h
      ensures variables == c.variables && blurTexture == NullTexture
    {
      shapes := c.shapes;
      blurDepth := c.blurDepth;
      w := c.w;
      h := c.h;
      variables := c.variables;
      blurTexture := NullTexture;
    }

    /** canvas::draw: the background, then each shape in order with the canvas's
        variables, until a shape fails. The observed clip is the same afterwards. */
    method Draw(rd: Renderer, area: Rect, location: Rect, host: Host) returns (outcome: Outcome)
      modifies rd
      ensures var d := CanvasDrawn(blurDepth, blurTexture, shapes,
                                   Scene(area, location, variables, host, rd.present, old(GetClip(rd))));
        rd.trace == old(rd.trace) + d.calls && outcome == d.outcome
      ensures rd.color == ColorAfter(old(rd.color), CanvasDrawn(blurDepth, blurTexture, shapes,
                                     Scene(area, location, variables, host, rd.present, old(GetClip(rd)))).calls)
      ensures GetClip(rd) == old(GetClip(rd)) && rd.viewport == old(rd.viewport) && rd.target == old(rd.target)
    {
      var sc := Scene(area, location, variables, host, rd.present, GetClip(rd));
      ghost var t0 := rd.trace;
      if blurDepth != 0 && blurTexture.Texture? {
        BlitPart(rd, blurTexture, location, area);
      }
      ghost var background := Background(blurDepth, blurTexture, area, location);
      assert rd.trace == t0 + background;
      outcome := DrawShapes(rd, shapes, sc);
      Assoc(t0, background, ShapesDrawn(shapes, |shapes|, Painter(sc)).calls);
      ColorAfterAppend(old(rd.color), background, ShapesDrawn(shapes, |shapes|, Painter(sc)).calls);
    }

    /** canvas::blit: validate the rectangle the widget is drawn into, find the part of
        the widget on the draw area, fill the blurred-background cache when it is
        wanted and empty (`blurred` is the blurred image of the pixels under the
        widget), then draw that part at the widget's position. */
    method Blit(rd: Renderer, rect: Rect, host: Host, blurred: Texture) returns (outcome: Outcome)
      modifies this, rd
      ensures shapes == old(shapes) && blurDepth == old(blurDepth) && w == old(w) && h == old(h)
      ensures variables == old(variables)
      ensures blurTexture == CachedBlur(shapes, w, h, rect, rd.drawArea, blurDepth, old(blurTexture), blurred)
      ensures var d := BlitDrawn(shapes, w, h, blurDepth, blurTexture, rect, rd.drawArea, variables, host,
                                 rd.present, old(GetClip(rd)));
        rd.trace == old(rd.trace) + d.calls && outcome == d.outcome
      ensures rd.color == ColorAfter(old(rd.color), BlitDrawn(shapes, w, h, blurDepth, blurTexture, rect, rd.drawArea,
                                                              variables, host, rd.present, old(GetClip(rd))).calls)
      ensures GetClip(rd) == old(GetClip(rd)) && rd.viewport == old(rd.viewport) && rd.target == old(rd.target)
    {
      if shapes == [] {
        return Pass;
      }
      outcome := BlitCheck(rect, w, h);
      if outcome.Fail? {
        return;
      }
      var clipped := IntersectRect(rect, Rect(0, 0, rd.drawArea.w, rd.drawArea.h));
      if !clipped.nonEmpty {
        return;
      }
      if blurDepth != 0 && blurTexture.NullTexture? {
        blurTexture := blurred;
      }
      var area := Rect(Max(0, -rect.x), Max(0, -rect.y), clipped.rect.w, clipped.rect.h);
      assert BlitArea(rect, rd.drawArea) == Some(area);
      outcome := Draw(rd, area, rect, host);
    }

    /** The pre_commit functions: each blur sets the blur depth. */
    method PreCommit(fns: seq<Child>)
      modifies this
      ensures blurDepth == BlurDepth(fns, old(blurDepth))
      ensures shapes == old(shapes) && w == old(w) && h == old(h)
      ensures variables == old(variables) && blurTexture == old(blurTexture)
    {
      var i := 0;
      while i < |fns|
        invariant 0 <= i <= |fns|
        invariant blurDepth == BlurDepth(fns[..i], old(blurDepth))
        invariant shapes == old(shapes) && w == old(w) && h == old(h)
        invariant variables == old(variables) && blurTexture == old(blurTexture)
      {
        assert fns[..i + 1][..i] == fns[..i];
        if fns[i].key == "blur" {
          blurDepth := ToInt(fns[i].cfg, "depth", 0);
        }
        i := i + 1;
      }
      assert fns[..i] == fns;
    }

    /** The body of canvas::parse_cfg's loop, for one child. */
    method ParseOne(child: Child) returns (outcome: Outcome)
      modifies this
      ensures Parsed(shapes, blurDepth, outcome) == ParseChild(Parsed(old(shapes), old(blurDepth), Pass), child)
      ensures w == old(w) && h == old(h) && variables == old(variables) && blurTexture == old(blurTexture)
    {
      outcome := Pass;
      var made := MakeShape(child.key, child.cfg);
      match made {
        case Made(s) =>
          shapes := shapes + [s];
        case Invalid(message) =>
          outcome := Fail(message);
        case NoShape =>
          if child.key == "pre_commit" {
            PreCommit(child.cfg.children);
          }
      }
    }

    /** canvas::parse_cfg: one shape appended per shape child, in order; pre_commit
        children set the blur depth; other children are skipped. A failing shape
        constructor ends the parse. */
    method ParseCfg(cfg: Config) returns (outcome: Outcome)
      modifies this
      ensures var p := ParseChildren(cfg.children, |cfg.children|, Parsed(old(shapes), old(blurDepth), Pass), ParseChild);
        shapes == p.shapes && blurDepth == p.blurDepth && outcome == p.outcome
      ensures w == old(w) && h == old(h) && variables == old(variables) && blurTexture == old(blurTexture)
    {
      ghost var start := Parsed(shapes, blurDepth, Pass);
      ghost var w0, h0, variables0, blurTexture0 := w, h, variables, blurTexture;
      var children := cfg.children;
      outcome := Pass;
      var i := 0;
      while i < |children| && outcome.Pass?
        invariant 0 <= i <= |children|
        invariant ParseChildren(children, i, start, ParseChild) == Parsed(shapes, blurDepth, outcome)
        invariant w == w0 && h == h0 && variables == variables0 && blurTexture == blurTexture0
        decreases |children| - i
      {
        ghost var next := ParseChild(Parsed(shapes, blurDepth, outcome), children[i]);
        assert ParseChildren(children, i + 1, start, ParseChild) == next;
        outcome := ParseOne(children[i]);
        i := i + 1;
      }
      if outcome.Fail? {
        ParseFailSticks(children, i, |children|, start, ParseChild);
      }
    }

    /** canvas::update_size_variables, `screen` standing for the screen-size variables
        the video system adds. */
    method UpdateSizeVariables(screen: Variables)
      modifies this
      ensures variables == SizeVariables(old(variables), screen, w, h)
      ensures shapes == old(shapes) && blurDepth == old(blurDepth) && w == old(w) && h == old(h)
      ensures blurTexture == old(blurTexture)
    {
      variables := variables + screen;
      variables := variables["width" := IntVariant(ToSigned(w))];
      variables := variables["height" := IntVariant(ToSigned(h))];
    }

    /** canvas::set_size: the size is stored as `unsigned` and the size variables are
        updated. */
    method SetSize(x: Int32, y: Int32, screen: Variables)
      modifies this
      ensures w == ToUnsigned(x) && h == ToUnsigned(y)
      ensures variables == SizeVariables(old(variables), screen, w, h)
      ensures shapes == old(shapes) && blurDepth == old(blurDepth) && blurTexture == old(blurTexture)
    {
      w := ToUnsigned(x);
      h := ToUnsigned(y);
      UpdateSizeVariables(screen);
    }

    /** canvas::clear_shapes: all shapes when forced, otherwise the mutable ones, the
        immutable ones staying in their order. */
    method ClearShapes(force: bool)
      modifies this
      ensures shapes == if force then [] else Immutables(old(shapes))
      ensures blurDepth == old(blurDepth) && w == old(w) && h == old(h)
      ensures variables == old(variables) && blurTexture == old(blurTexture)
    {
      if force {
        shapes := [];
        return;
      }
      var kept := [];
      var i := 0;
      while i < |shapes|
        invariant 0 <= i <= |shapes|
        invariant kept == Immutables(shapes[..i])
        invariant shapes == old(shapes) && blurDepth == old(blurDepth) && w == old(w) && h == old(h)
        invariant variables == old(variables) && blurTexture == old(blurTexture)
      {
        assert shapes[..i + 1] == shapes[..i] + [shapes[i]];
        ImmutablesAppend(shapes[..i], [shapes[i]]);
        assert [shapes[i]][1..] == [];
        if shapes[i].immutable {
          kept := kept + [shapes[i]];
        }
        i := i + 1;
      }
      assert shapes[..i] == shapes;
      shapes := kept;
    }
  }
}
