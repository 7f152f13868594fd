/** The SDL renderer the drawing code talks to, as an abstract state: the draw colour,
    the clip rectangle, the viewport, the render target, and the trace of every SDL call
    that draws or changes that state. Pixels are not modelled. */
module Render {
  import opened Wrappers
  import opened Geometry

  type Byte = b: int | 0 <= b < 256

  /** SDL_ALPHA_OPAQUE */
  const Opaque: Byte := 255

  /** color_t: red, green, blue and alpha. */
  datatype Color = Color(r: Byte, g: Byte, b: Byte, a: Byte)

  /** color_t::null_color(): the colour a shape uses to mean "do not draw". */
  const NullColor := Color(0, 0, 0, 0)

  predicate IsNull(c: Color) { c == NullColor }

  /** SDL_TextureAccess; a texture must have `Target` access to be rendered to. */
  datatype Access = Static | Streaming | Target

  /** The `texture` wrapper: null, or an SDL texture with its size and access mode. */
  datatype Texture = NullTexture | Texture(id: nat, w: int, h: int, access: Access)
  {
    /** SDL never creates a texture without pixels. */
    predicate Valid() { NullTexture? || (w > 0 && h > 0) }
  }

  /** SDL_RendererFlip flags. */
  const FlipNone: bv32 := 0
  const FlipHorizontal: bv32 := 1
  const FlipVertical: bv32 := 2

  /** One SDL call, as the renderer receives it. */
  datatype Call =
    | SetDrawColor(color: Color)                 // SDL_SetRenderDrawColor
    | FillRect(area: Rect)                       // SDL_RenderFillRect
    | DrawRect(outline: Rect)                    // SDL_RenderDrawRect
    | DrawLine(x1: int, y1: int, x2: int, y2: int)  // SDL_RenderDrawLine
    | DrawPoints(points: seq<Point>)             // SDL_RenderDrawPoints
    | DrawPoint(at: Point)                       // SDL_RenderDrawPoint
    | Copy(tex: Texture, src: Option<Rect>, dst: Option<Rect>)  // SDL_RenderCopy
    | CopyEx(tex: Texture, src: Option<Rect>, dst: Option<Rect>, flip: bv32)  // SDL_RenderCopyEx, angle 0, no centre
    | CopyTiledHighres(tex: Texture, area: Rect, centered: bool, mirrored: bool)  // the float-coordinate copies of draw::tiled_highres
    | SetClipRect(clip: Rect)                    // SDL_RenderSetClipRect
    | SetViewport(viewport: Rect)                // SDL_RenderSetViewport
    | SetRenderTarget(target: Texture)           // CVideo::force_render_target

  /** The renderer state that the calls change. */
  datatype RenderState = RenderState(color: Color, clip: Rect, viewport: Rect, target: Texture)

  /** The state after one call. */
  function Apply(s: RenderState, c: Call): RenderState
  {
    match c
    case SetDrawColor(color) => s.(color := color)
    case SetClipRect(clip) => s.(clip := clip)
    case SetViewport(viewport) => s.(viewport := viewport)
    case SetRenderTarget(target) => s.(target := target)
    case _ => s
  }

  /** The state after a sequence of calls, applied from first to last. */
  function Replay(s: RenderState, calls: seq<Call>): RenderState
    decreases |calls|
  {
    if calls == [] then s else Apply(Replay(s, calls[..|calls| - 1]), calls[|calls| - 1])
  }

  /** Replaying a concatenation is replaying its two parts one after the other. */
  lemma {:induction false} ReplayAppend(s: RenderState, a: seq<Call>, b: seq<Call>)
    ensures Replay(s, a + b) == Replay(Replay(s, a), b)
    decreases |b|
  {
    if b != [] {
      assert (a + b)[..|a + b| - 1] == a + b[..|b| - 1];
      assert (a + b)[|a + b| - 1] == b[|b| - 1];
      ReplayAppend(s, a, b[..|b| - 1]);
    } else {
      assert a + b == a;
    }
  }

  /** Drawing calls (anything but the four setters) leave the state alone. */
  predicate DrawsOnly(calls: seq<Call>)
  {
    forall i :: 0 <= i < |calls| ==>
      !(calls[i].SetDrawColor? || calls[i].SetClipRect? || calls[i].SetViewport? || calls[i].SetRenderTarget?)
  }

  lemma {:induction false} ReplayDrawsOnly(s: RenderState, calls: seq<Call>)
    requires DrawsOnly(calls)
    ensures Replay(s, calls) == s
    decreases |calls|
  {
    if calls != [] {
      ReplayDrawsOnly(s, calls[..|calls| - 1]);
    }
  }

  /** The draw colour after a sequence of calls starting from colour c: the colour of
      the last SetDrawColor among them, or c when there is none. */
  function ColorAfter(c: Color, calls: seq<Call>): Color
    decreases |calls|
  {
    if calls == [] then c
    else if calls[|calls| - 1].SetDrawColor? then calls[|calls| - 1].color
    else ColorAfter(c, calls[..|calls| - 1])
  }

  /** ColorAfter is the colour that replaying the calls leaves. */
  lemma {:induction false} ReplayColor(s: RenderState, calls: seq<Call>)
    ensures Replay(s, calls).color == ColorAfter(s.color, calls)
    decreases |calls|
  {
    if calls != [] {
      ReplayColor(s, calls[..|calls| - 1]);
    }
  }

  /** The colour after a concatenation is the colour after its second part, started
      from the colour after its first. */
  lemma {:induction false} ColorAfterAppend(c: Color, a: seq<Call>, b: seq<Call>)
    ensures ColorAfter(c, a + b) == ColorAfter(ColorAfter(c, a), b)
    decreases |b|
  {
    if b != [] {
      assert (a + b)[..|a + b| - 1] == a + b[..|b| - 1];
      assert (a + b)[|a + b| - 1] == b[|b| - 1];
      ColorAfterAppend(c, a, b[..|b| - 1]);
    } else {
      assert a + b == a;
    }
  }

  /** No call in the sequence sets the draw colour. */
  predicate KeepsColor(calls: seq<Call>)
  {
    forall i :: 0 <= i < |calls| ==> !calls[i].SetDrawColor?
  }

  /** Calls that set no colour leave the colour they found. */
  lemma {:induction false} ColorKept(c: Color, calls: seq<Call>)
    requires KeepsColor(calls)
    ensures ColorAfter(c, calls) == c
    decreases |calls|
  {
    if calls != [] {
      ColorKept(c, calls[..|calls| - 1]);
    }
  }

  /** After a SetDrawColor followed by calls that set no colour, the colour is the one
      that call set, whatever came before. */
  lemma ColorSetLast(c: Color, a: seq<Call>, x: Color, b: seq<Call>)
    requires KeepsColor(b)
    ensures ColorAfter(c, a + [SetDrawColor(x)] + b) == x
  {
    ColorAfterAppend(c, a + [SetDrawColor(x)], b);
    ColorKept(x, b);
  }

  /** The SDL renderer behind CVideo. `present` says whether the renderer pointer is
      non-null; `drawArea` is CVideo::draw_area(). The clip and viewport fields hold
      what SDL stores, where the empty rectangle means "no clipping". `trace` records
      every call issued, in order. */
  class Renderer {
    const present: bool
    const drawArea: Rect

    var color: Color
    var clip: Rect
    var viewport: Rect
    var target: Texture
    var trace: seq<Call>

    function State(): RenderState
      reads this
    {
      RenderState(color, clip, viewport, target)
    }

    constructor (present: bool, drawArea: Rect, start: RenderState)
      ensures trace == []
      ensures this.present == present && this.drawArea == drawArea && State() == start
    {
      this.present := present;
      this.drawArea := drawArea;
      color, clip, viewport, target := start.color, start.clip, start.viewport, start.target;
      trace := [];
    }

    /** Issue one SDL call: it is recorded, and the state changes as it says. */
    method Emit(c: Call)
      modifies this
      ensures trace == old(trace) + [c]
      ensures State() == Apply(old(State()), c)
    {
      var next := Apply(State(), c);
      color, clip, viewport, target := next.color, next.clip, next.viewport, next.target;
      trace := trace + [c];
    }
  }
}
