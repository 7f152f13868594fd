/** The declarative side of the GUI canvas: the configuration a canvas is read from,
    the formulas its shapes hold, the shapes as their constructors build them, and the
    pure computations their drawing code shares (calculate_rects, get_resize_mode,
    dimension_validation). */
module Shapes {
  import opened Wrappers
  import opened Geometry
  import opened Render

  /*************************/
  /* formulas and variables */
  /*************************/

  /** A value in a formula callable's table of variables. */
  datatype Variant = IntVariant(n: int) | StringVariant(s: string)

  /** wfl::map_formula_callable: the named values a shape's formulas can read. */
  type Variables = map<string, Variant>

  /** typed_formula<T>: a value fixed by the configuration, or the text of a formula
      that is evaluated against the variables every time it is read. */
  datatype Formula<T> = Literal(value: T) | Expression(source: string)

  /** A texture the image loader hands out: null, or one with a positive size. */
  type LoadedTexture = t: Texture | t.Valid() witness NullTexture

  /** image::scale_quality: the filtering a texture is created with. */
  datatype ScaleQuality = Nearest | Linear

  /** What the canvas code calls but does not define: the formula evaluator, one entry
      per result type, and the image loader. */
  datatype Host = Host(
    ints: (string, Variables) -> Int32,
    colors: (string, Variables) -> Color,
    strings: (string, Variables) -> string,
    flags: (string, Variables) -> bool,
    textures: (string, ScaleQuality) -> LoadedTexture)

  /** typed_formula::operator(): the literal, or what the evaluator makes of the formula
      with these variables. */
  function Eval<T>(f: Formula<T>, vars: Variables, evaluate: (string, Variables) -> T): T
  {
    match f
    case Literal(v) => v
    case Expression(source) => evaluate(source, vars)
  }

  /** The colour typed_formula<color_t> holds when its attribute is missing and no
      default is given: color_t's default, opaque white. */
  const DefaultColor := Color(255, 255, 255, Opaque)

  /*****************/
  /* configuration */
  /*****************/

  /** A configuration attribute, already converted to the type it is read as: the text
      of a formula (an attribute that starts with '('), a number, a colour, a string or
      a boolean. */
  datatype Attribute =
    | FormulaText(source: string)
    | Number(n: Int32)
    | Colour(c: Color)
    | Text(s: string)
    | Flag(b: bool)

  /** A configuration node: its attributes and its children in order. */
  datatype Config = Config(attrs: map<string, Attribute>, children: seq<Child>)

  /** A child of a configuration node with its tag. */
  datatype Child = Child(key: string, cfg: Config)

  /** typed_formula<int> read from attribute `key`, `def` when it is missing. */
  function IntFormula(cfg: Config, key: string, def: Int32): Formula<Int32>
  {
    if key !in cfg.attrs then Literal(def)
    else match cfg.attrs[key]
      case FormulaText(source) => Expression(source)
      case Number(n) => Literal(n)
      case _ => Literal(def)
  }

  /** typed_formula<color_t> read from attribute `key`. */
  function ColorFormula(cfg: Config, key: string, def: Color): Formula<Color>
  {
    if key !in cfg.attrs then Literal(def)
    else match cfg.attrs[key]
      case FormulaText(source) => Expression(source)
      case Colour(c) => Literal(c)
      case _ => Literal(def)
  }

  /** typed_formula<std::string> read from attribute `key`; the empty string when it is
      missing. */
  function StringFormula(cfg: Config, key: string): Formula<string>
  {
    if key !in cfg.attrs then Literal("")
    else match cfg.attrs[key]
      case FormulaText(source) => Expression(source)
      case Text(s) => Literal(s)
      case _ => Literal("")
  }

  /** typed_formula<bool> read from attribute `key`; false when it is missing. */
  function FlagFormula(cfg: Config, key: string): Formula<bool>
  {
    if key !in cfg.attrs then Literal(false)
    else match cfg.attrs[key]
      case FormulaText(source) => Expression(source)
      case Flag(b) => Literal(b)
      case _ => Literal(false)
  }

  /** config::attribute_value::to_int(def). */
  function ToInt(cfg: Config, key: string, def: Int32): Int32
  {
    if key in cfg.attrs && cfg.attrs[key].Number? then cfg.attrs[key].n else def
  }

  /** config::attribute_value::to_bool(def). */
  function ToBool(cfg: Config, key: string, def: bool): bool
  {
    if key in cfg.attrs && cfg.attrs[key].Flag? then cfg.attrs[key].b else def
  }

  /** config::get_old_attribute(key, old_key): the attribute under its current name,
      else under its deprecated name. */
  function OldAttribute(cfg: Config, key: string, oldKey: string): Config
  {
    if key !in cfg.attrs && oldKey in cfg.attrs then Config(cfg.attrs[key := cfg.attrs[oldKey]], cfg.children)
    else cfg
  }

  /**********/
  /* shapes */
  /**********/

  /** rect_bounded_shape: the formulas for the shape's rectangle in widget space. */
  datatype Bounds = Bounds(x: Formula<Int32>, y: Formula<Int32>, w: Formula<Int32>, h: Formula<Int32>)

  /** image_shape::resize_mode. */
  datatype ResizeMode = Scale | ScaleSharp | Stretch | Tile | TileCenter | TileHighres

  /** The shapes a canvas draws, with what their constructors store. Every shape has
      the `immutable` flag of the shape base class, which clear_shapes consults. */
  datatype Shape =
    | LineShape(immutable: bool, x1: Formula<Int32>, y1: Formula<Int32>, x2: Formula<Int32>, y2: Formula<Int32>,
                color: Formula<Color>, thickness: Formula<Int32>)
    | RectangleShape(immutable: bool, bounds: Bounds, borderThickness: Int32,
                     borderColor: Formula<Color>, fillColor: Formula<Color>)
    | RoundRectangleShape(immutable: bool, bounds: Bounds, radius: Formula<Int32>, borderThickness: Int32,
                          borderColor: Formula<Color>, fillColor: Formula<Color>)
    | CircleShape(immutable: bool, x: Formula<Int32>, y: Formula<Int32>, radius: Formula<Int32>,
                  borderColor: Formula<Color>, fillColor: Formula<Color>, rings: UInt32)
    | ImageShape(immutable: bool, x: Formula<Int32>, y: Formula<Int32>, w: Formula<Int32>, h: Formula<Int32>,
                 name: Formula<string>, resizeMode: ResizeMode, mirror: Formula<bool>)
    | TextShape(immutable: bool, bounds: Bounds, text: Formula<string>, fontSize: Formula<Int32>)

  /** The shape base constructor: `immutable`, false unless set. */
  function Immutable(cfg: Config): bool
  {
    ToBool(cfg, "immutable", false)
  }

  function ReadBounds(cfg: Config): Bounds
  {
    Bounds(IntFormula(cfg, "x", 0), IntFormula(cfg, "y", 0), IntFormula(cfg, "w", 0), IntFormula(cfg, "h", 0))
  }

  /** The border_thickness the rectangle constructors keep: zero when the border colour
      is a literal null colour, the configured thickness otherwise. */
  function BorderThickness(cfg: Config, border: Formula<Color>): (t: Int32)
    ensures border.Literal? && IsNull(border.value) ==> t == 0
    ensures !(border.Literal? && IsNull(border.value)) ==> t == ToInt(cfg, "border_thickness", 0)
  {
    if border.Literal? && IsNull(border.value) then 0 else ToInt(cfg, "border_thickness", 0)
  }

  /** line_shape's constructor. */
  function MakeLine(cfg: Config): (r: Shape)
    ensures r.LineShape? && r.immutable == Immutable(cfg)
    ensures "x1" !in cfg.attrs ==> r.x1 == Literal(0)
    ensures "y1" !in cfg.attrs ==> r.y1 == Literal(0)
    ensures "x2" !in cfg.attrs ==> r.x2 == Literal(0)
    ensures "y2" !in cfg.attrs ==> r.y2 == Literal(0)
    ensures "thickness" !in cfg.attrs ==> r.thickness == Literal(0)
    ensures "color" !in cfg.attrs ==> r.color == Literal(DefaultColor)
  {
    LineShape(Immutable(cfg), IntFormula(cfg, "x1", 0), IntFormula(cfg, "y1", 0),
              IntFormula(cfg, "x2", 0), IntFormula(cfg, "y2", 0),
              ColorFormula(cfg, "color", DefaultColor), IntFormula(cfg, "thickness", 0))
  }

  /** rectangle_shape's constructor: colours default to the null colour, and a border
      whose colour is a literal null colour gets thickness zero, so no outline is drawn. */
  function MakeRectangle(cfg: Config): (r: Shape)
    ensures r.RectangleShape? && r.immutable == Immutable(cfg) && r.bounds == ReadBounds(cfg)
    ensures "border_color" !in cfg.attrs ==> r.borderColor == Literal(NullColor) && r.borderThickness == 0
    ensures "fill_color" !in cfg.attrs ==> r.fillColor == Literal(NullColor)
    ensures r.borderThickness == 0 <==>
      ToInt(cfg, "border_thickness", 0) == 0 || (r.borderColor.Literal? && IsNull(r.borderColor.value))
    ensures r.borderThickness != 0 ==> r.borderThickness == ToInt(cfg, "border_thickness", 0)
  {
    var border := ColorFormula(cfg, "border_color", NullColor);
    RectangleShape(Immutable(cfg), ReadBounds(cfg), BorderThickness(cfg, border),
                   border, ColorFormula(cfg, "fill_color", NullColor))
  }

  /** round_rectangle_shape's constructor: the same, plus the corner radius. */
  function MakeRoundRectangle(cfg: Config): (r: Shape)
    ensures r.RoundRectangleShape? && r.immutable == Immutable(cfg) && r.bounds == ReadBounds(cfg)
    ensures "corner_radius" !in cfg.attrs ==> r.radius == Literal(0)
    ensures "border_color" !in cfg.attrs ==> r.borderColor == Literal(NullColor) && r.borderThickness == 0
    ensures "fill_color" !in cfg.attrs ==> r.fillColor == Literal(NullColor)
    ensures r.borderThickness == 0 <==>
      ToInt(cfg, "border_thickness", 0) == 0 || (r.borderColor.Literal? && IsNull(r.borderColor.value))
    ensures r.borderThickness != 0 ==> r.borderThickness == ToInt(cfg, "border_thickness", 0)
  {
    var border := ColorFormula(cfg, "border_color", NullColor);
    RoundRectangleShape(Immutable(cfg), ReadBounds(cfg), IntFormula(cfg, "corner_radius", 0),
                        BorderThickness(cfg, border), border, ColorFormula(cfg, "fill_color", NullColor))
  }

  /** circle_shape's constructor: the number of rings is an `unsigned` read with
      to_int(1), so a missing border_thickness draws one ring. */
  function MakeCircle(cfg: Config): (r: Shape)
    ensures r.CircleShape? && r.immutable == Immutable(cfg)
    ensures "border_thickness" !in cfg.attrs ==> r.rings == 1
    ensures ToInt(cfg, "border_thickness", 1) >= 0 ==> r.rings == ToInt(cfg, "border_thickness", 1)
    ensures ToInt(cfg, "border_thickness", 1) < 0 ==> r.rings == ToInt(cfg, "border_thickness", 1) + TwoTo32
    ensures "border_color" !in cfg.attrs ==> r.borderColor == Literal(DefaultColor)
    ensures "fill_color" !in cfg.attrs ==> r.fillColor == Literal(DefaultColor)
  {
    CircleShape(Immutable(cfg), IntFormula(cfg, "x", 0), IntFormula(cfg, "y", 0), IntFormula(cfg, "radius", 0),
                ColorFormula(cfg, "border_color", DefaultColor), ColorFormula(cfg, "fill_color", DefaultColor),
                ToUnsigned(ToInt(cfg, "border_thickness", 1)))
  }

  /** image_shape's constructor. `mirror` falls back to the deprecated `vertical_mirror`. */
  function MakeImage(cfg: Config): (r: Shape)
    ensures r.ImageShape? && r.immutable == Immutable(cfg)
    ensures "mirror" in cfg.attrs ==> r.mirror == FlagFormula(cfg, "mirror")
    ensures "mirror" !in cfg.attrs ==> r.mirror == FlagFormula(cfg, "vertical_mirror")
    ensures "resize_mode" !in cfg.attrs ==> r.resizeMode == Scale
    ensures "name" !in cfg.attrs ==> r.name == Literal("")
  {
    ImageShape(Immutable(cfg), IntFormula(cfg, "x", 0), IntFormula(cfg, "y", 0),
               IntFormula(cfg, "w", 0), IntFormula(cfg, "h", 0), StringFormula(cfg, "name"),
               GetResizeMode(if "resize_mode" in cfg.attrs && cfg.attrs["resize_mode"].Text?
                             then cfg.attrs["resize_mode"].s else ""),
               FlagFormula(OldAttribute(cfg, "mirror", "vertical_mirror"), "mirror"))
  }

  /** text_shape's constructor, reduced to what the canvas needs: a font size given as a
      literal must not be zero (the size defaults to zero when missing). */
  function MakeText(cfg: Config): (r: Made)
    ensures r.Invalid? <==> IntFormula(cfg, "font_size", 0) == Literal(0)
    ensures r.Invalid? ==> r.message == "Text has a font size of 0."
    ensures r.Made? ==> r.shape.TextShape? && r.shape.bounds == ReadBounds(cfg)
  {
    var size := IntFormula(cfg, "font_size", 0);
    if size.Literal? && size.value == 0 then Invalid("Text has a font size of 0.")
    else Made(TextShape(Immutable(cfg), ReadBounds(cfg), StringFormula(cfg, "text"), size))
  }

  /** What parse_cfg gets for one child: a shape, no shape (a tag it does not know), or
      the message of a validation failure in a constructor. */
  datatype Made = Made(shape: Shape) | NoShape | Invalid(message: string)

  /** The shape constructor parse_cfg picks for a child's tag. */
  function MakeShape(key: string, cfg: Config): (r: Made)
    ensures r.Made? <==> key in ShapeKeys && !(key == "text" && MakeText(cfg).Invalid?)
    ensures r.Invalid? ==> key == "text"
    ensures r.Made? ==> KeyOf(r.shape) == key
  {
    if key == "line" then Made(MakeLine(cfg))
    else if key == "rectangle" then Made(MakeRectangle(cfg))
    else if key == "round_rectangle" then Made(MakeRoundRectangle(cfg))
    else if key == "circle" then Made(MakeCircle(cfg))
    else if key == "image" then Made(MakeImage(cfg))
    else if key == "text" then MakeText(cfg)
    else NoShape
  }

  /** The tags that make a shape. */
  const ShapeKeys: set<string> := {"line", "rectangle", "round_rectangle", "circle", "image", "text"}

  /** The tag a shape is read from. */
  function KeyOf(s: Shape): string
  {
    match s
    case LineShape(_, _, _, _, _, _, _) => "line"
    case RectangleShape(_, _, _, _, _) => "rectangle"
    case RoundRectangleShape(_, _, _, _, _, _) => "round_rectangle"
    case CircleShape(_, _, _, _, _, _, _) => "circle"
    case ImageShape(_, _, _, _, _, _, _, _) => "image"
    case TextShape(_, _, _, _) => "text"
  }

  /** A rectangle whose border colour is a literal null colour draws no outline. */
  lemma NullBorderDrawsNoRing(cfg: Config)
    requires ColorFormula(cfg, "border_color", NullColor) == Literal(NullColor)
    ensures MakeRectangle(cfg).borderThickness == 0
    ensures MakeRoundRectangle(cfg).borderThickness == 0
  {
  }

  /*************************/
  /* image_shape helpers */
  /*************************/

  /** image_shape::get_resize_mode: total; the five mode names map to their modes and
      every other string, "scale" and the empty string among them, maps to Scale. */
  function GetResizeMode(name: string): (m: ResizeMode)
    ensures m == Tile <==> name == "tile"
    ensures m == TileCenter <==> name == "tile_center"
    ensures m == TileHighres <==> name == "tile_highres"
    ensures m == Stretch <==> name == "stretch"
    ensures m == ScaleSharp <==> name == "scale_sharp"
    ensures m == Scale <==> name !in {"tile", "tile_center", "tile_highres", "stretch", "scale_sharp"}
  {
    if name == "tile" then Tile
    else if name == "tile_center" then TileCenter
    else if name == "tile_highres" then TileHighres
    else if name == "stretch" then Stretch
    else if name == "scale_sharp" then ScaleSharp
    else Scale
  }

  /** The filtering image_shape::draw asks for: smooth for the scaling modes, nearest
      otherwise. */
  function QualityFor(m: ResizeMode): ScaleQuality
  {
    if m == Stretch || m == Scale then Linear else Nearest
  }

  /** image_shape::dimension_validation: the `unsigned` it is given, read back as an
      `int`, must not be negative. */
  function DimensionValidation(value: UInt32): (r: Outcome)
    ensures r.Pass? <==> value < 0x8000_0000
    ensures r.Fail? ==> r.message == "Image doesn't fit on canvas."
  {
    if ToSigned(value) >= 0 then Pass else Fail("Image doesn't fit on canvas.")
  }

  /** A width or height computed as an `int` and checked by dimension_validation passes
      exactly when it is not negative: the trip through `unsigned` loses nothing. */
  lemma DimensionValidationOfInt(v: Int32)
    ensures DimensionValidation(ToUnsigned(v)).Pass? <==> v >= 0
  {
    assert Wrap32(v) == v;
  }

  /*******************/
  /* calculate_rects */
  /*******************/

  /** rect_bounded_shape::calculated_rects. */
  datatype CalculatedRects = CalculatedRects(
    empty: bool,
    dstOnWidget: Rect,
    clipOnWidget: Rect,
    clipInShape: Rect,
    unclippedAroundViewport: Rect,
    dstInViewport: Rect)

  /** rect_bounded_shape::calculate_rects for the evaluated rectangle (x, y, w, h) of a
      shape (each read as `unsigned` and stored in an SDL_Rect's `int`) and the view
      bounds. */
  function CalculateRects(x: Int32, y: Int32, w: Int32, h: Int32, viewBounds: Rect): (r: CalculatedRects)
    ensures r.dstOnWidget == Rect(x, y, w, h)
    ensures r.empty ==>
      r.clipOnWidget == EmptyRect && r.clipInShape == EmptyRect &&
      r.unclippedAroundViewport == EmptyRect && r.dstInViewport == EmptyRect
  {
    var dst := Rect(Wrap32(x), Wrap32(y), Wrap32(w), Wrap32(h));
    var i := IntersectRect(dst, viewBounds);
    if !i.nonEmpty then
      CalculatedRects(true, dst, EmptyRect, EmptyRect, EmptyRect, EmptyRect)
    else
      var clip := i.rect;
      CalculatedRects(false, dst, clip, Shift(clip, -(x as int), -(y as int)),
                      Shift(dst, -viewBounds.x, -viewBounds.y), Shift(clip, -viewBounds.x, -viewBounds.y))
  }

  /** calculate_rects is empty exactly when the shape shows no pixel inside the view
      bounds, and then only the shape's own rectangle is filled in. */
  lemma CalculateRectsEmpty(x: Int32, y: Int32, w: Int32, h: Int32, viewBounds: Rect)
    ensures var r := CalculateRects(x, y, w, h, viewBounds);
      r.empty <==> forall px, py :: !(Contains(Rect(x, y, w, h), px, py) && Contains(viewBounds, px, py))
  {
    var r := CalculateRects(x, y, w, h, viewBounds);
    var i := IntersectRect(Rect(x, y, w, h), viewBounds);
    assert r.empty == !i.nonEmpty;
    if i.nonEmpty {
      assert Contains(i.rect, i.rect.x, i.rect.y);
    }
  }

  /** Otherwise the visible part has area and lies in both the shape and the view
      bounds, pixel for pixel their overlap; seen from the shape it starts at a
      non-negative offset and stays inside the shape's own extent; seen from the
      viewport it stays inside the viewport; the unclipped shape keeps its size; each
      result is a moved copy of the visible part or of the shape. */
  lemma CalculateRectsVisible(x: Int32, y: Int32, w: Int32, h: Int32, viewBounds: Rect)
    ensures var r := CalculateRects(x, y, w, h, viewBounds);
      !r.empty ==>
      && !NoArea(r.clipOnWidget)
      && Inside(r.clipOnWidget, Rect(x, y, w, h)) && Inside(r.clipOnWidget, viewBounds)
      && (forall px, py :: Contains(r.clipOnWidget, px, py) <==>
            Contains(Rect(x, y, w, h), px, py) && Contains(viewBounds, px, py))
      && r.clipInShape.x >= 0 && r.clipInShape.y >= 0 && Inside(r.clipInShape, Rect(0, 0, w, h))
      && Inside(r.dstInViewport, Rect(0, 0, viewBounds.w, viewBounds.h))
      && r.unclippedAroundViewport == Shift(Rect(x, y, w, h), -viewBounds.x, -viewBounds.y)
      && r.clipInShape == Shift(r.clipOnWidget, -(x as int), -(y as int))
      && r.dstInViewport == Shift(r.clipOnWidget, -viewBounds.x, -viewBounds.y)
  {
    var r := CalculateRects(x, y, w, h, viewBounds);
    var i := IntersectRect(Rect(x, y, w, h), viewBounds);
    assert r.empty == !i.nonEmpty;
  }

  /** calculate_rects for a shape's bounds, evaluated with these variables. */
  function ShapeRects(b: Bounds, viewBounds: Rect, vars: Variables, host: Host): CalculatedRects
  {
    CalculateRects(Eval(b.x, vars, host.ints), Eval(b.y, vars, host.ints),
                   Eval(b.w, vars, host.ints), Eval(b.h, vars, host.ints), viewBounds)
  }
}
