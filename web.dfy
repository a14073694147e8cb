/**
 * The web backend's builder extension (`WindowBuilderExtWebSys::with_canvas`):
 * the caller hands over a canvas element of its own page. The builder then
 *   - takes its logical inner size from the canvas's current pixel size,
 *     unless an inner size is already configured, and
 *   - records the canvas (or its absence) in the platform-specific
 *     attributes, replacing whatever was recorded before.
 */
module WebPlatform {
  import opened Wrappers
  import opened Dpi

  /**
   * An `HtmlCanvasElement`: a handle to a DOM node that the page owns. It has
   * identity (two handles may denote the same node) and its `width` and
   * `height` attributes may change at any time, so it is a class.
   */
  class Canvas {
    var width: u32
    var height: u32

    constructor (width: u32, height: u32)
      ensures this.width == width && this.height == height
    {
      this.width := width;
      this.height := height;
    }
  }

  /** The builder fields that `with_canvas` never touches. */
  type OtherWindowAttributes(==)
  type OtherPlatformAttributes(==)

  /** `WindowAttributes`: only `inner_size` is named; the rest is opaque. */
  datatype WindowAttributes = WindowAttributes(innerSize: Option<Size>, rest: OtherWindowAttributes)

  /** The web backend's `PlatformSpecificWindowBuilderAttributes`. */
  datatype PlatformAttributes = PlatformAttributes(canvas: Option<Canvas>, rest: OtherPlatformAttributes)

  /** The value of a `WindowBuilder`: its two attribute records. */
  datatype BuilderState = BuilderState(window: WindowAttributes, platformSpecific: PlatformAttributes)

  /** The objects a canvas argument lets a function read. */
  function Footprint(canvas: Option<Canvas>): set<Canvas>
  {
    if canvas.Some? then {canvas.value} else {}
  }

  /**
   * The logical size a canvas's current pixel dimensions give: each component
   * is exactly the canvas's `u32` dimension, so a whole number below 2^32.
   */
  function CanvasLogicalSize(c: Canvas): (s: Size)
    reads c
    ensures s.Logical?
    ensures IsExactU32(s.logical.width) && s.logical.width.Floor == c.width as int
    ensures IsExactU32(s.logical.height) && s.logical.height.Floor == c.height as int
  {
    Logical(LogicalSize(U32AsF64(c.width), U32AsF64(c.height)))
  }

  /** The size a canvas argument offers: none when no canvas is supplied. */
  function OfferedSize(canvas: Option<Canvas>): Option<Size>
    reads Footprint(canvas)
  {
    if canvas.Some? then Some(CanvasLogicalSize(canvas.value)) else None
  }

  /**
   * The builder after `with_canvas(canvas)`, stated as a precedence rule: an
   * inner size already configured wins over the one the canvas offers, and
   * the canvas argument replaces the recorded one.
   */
  function AfterWithCanvas(s: BuilderState, canvas: Option<Canvas>): (r: BuilderState)
    reads Footprint(canvas)
    ensures r.platformSpecific.canvas == canvas
    ensures r.window.rest == s.window.rest && r.platformSpecific.rest == s.platformSpecific.rest
    ensures s.window.innerSize.Some? ==> r.window.innerSize == s.window.innerSize
    ensures canvas.None? ==> r.window.innerSize == s.window.innerSize
    ensures r.window.innerSize.Some? <==> s.window.innerSize.Some? || canvas.Some?
  {
    BuilderState(
      s.window.(innerSize := s.window.innerSize.Or(OfferedSize(canvas))),
      s.platformSpecific.(canvas := canvas))
  }

  /** `WindowBuilder`: the record `with_canvas` takes by value, updates and returns. */
  class WindowBuilder {
    var window: WindowAttributes
    var platformSpecific: PlatformAttributes

    constructor (s: BuilderState)
      ensures State() == s
    {
      window := s.window;
      platformSpecific := s.platformSpecific;
    }

    function State(): BuilderState
      reads this
    {
      BuilderState(window, platformSpecific)
    }

    /**
     * `with_canvas`: when a canvas is supplied and no inner size is set, the
     * inner size becomes the canvas's logical size; then the argument is
     * recorded as the canvas. Returns the same builder, for chaining.
     */
    method WithCanvas(canvas: Option<Canvas>) returns (self: WindowBuilder)
      modifies this
      ensures self == this
      ensures State() == AfterWithCanvas(old(State()), canvas)
    {
      if canvas.Some? {
        if window.innerSize.None? {
          var c := canvas.value;
          window := window.(innerSize := Some(Logical(LogicalSize(U32AsF64(c.width), U32AsF64(c.height)))));
        }
      }
      platformSpecific := platformSpecific.(canvas := canvas);
      self := this;
    }
  }

  // ---------------------------------------------------------------------------
  // Properties of one call

  /** A supplied canvas sizes an unsized builder to its own dimensions. */
  lemma SizeDerivedFromCanvas(s: BuilderState, c: Canvas)
    requires s.window.innerSize.None?
    ensures AfterWithCanvas(s, Some(c)).window.innerSize
         == Some(Logical(LogicalSize(c.width as real, c.height as real)))
  {
  }

  /** A configured inner size is kept whatever the canvas's dimensions. */
  lemma ExplicitSizeWins(s: BuilderState, c: Canvas)
    requires s.window.innerSize.Some?
    ensures AfterWithCanvas(s, Some(c)).window.innerSize == s.window.innerSize
  {
  }

  /** No canvas: the inner size is left as it was and no canvas stays recorded. */
  lemma AbsentCanvasClears(s: BuilderState)
    ensures AfterWithCanvas(s, None).window.innerSize == s.window.innerSize
    ensures AfterWithCanvas(s, None).platformSpecific.canvas.None?
  {
  }

  /** Calling twice with the same argument is the same as calling once. */
  lemma WithCanvasIdempotent(s: BuilderState, canvas: Option<Canvas>)
    ensures AfterWithCanvas(AfterWithCanvas(s, canvas), canvas) == AfterWithCanvas(s, canvas)
  {
  }

  /**
   * Two calls on an unsized builder: the second canvas is recorded, while the
   * inner size stays at the first canvas's dimensions.
   */
  lemma TwoCanvasesFirstSizes(s: BuilderState, c1: Canvas, c2: Canvas)
    requires s.window.innerSize.None?
    ensures AfterWithCanvas(AfterWithCanvas(s, Some(c1)), Some(c2)).platformSpecific.canvas == Some(c2)
    ensures AfterWithCanvas(AfterWithCanvas(s, Some(c1)), Some(c2)).window.innerSize
         == Some(Logical(LogicalSize(c1.width as real, c1.height as real)))
  {
  }

  // ---------------------------------------------------------------------------
  // A chain of calls: `builder.with_canvas(a).with_canvas(b)...`

  /** Every canvas a sequence of arguments mentions. */
  function CanvasesIn(cs: seq<Option<Canvas>>): set<Canvas>
  {
    if cs == [] then {} else Footprint(cs[0]) + CanvasesIn(cs[1..])
  }

  /** The first canvas actually supplied in a sequence of arguments. */
  function FirstCanvas(cs: seq<Option<Canvas>>): (r: Option<Canvas>)
    ensures r.Some? ==> Some(r.value) in cs
    ensures r.None? ==> forall i :: 0 <= i < |cs| ==> cs[i].None?
  {
    if cs == [] then None else if cs[0].Some? then cs[0] else FirstCanvas(cs[1..])
  }

  /** The builder after calling `with_canvas` with each argument in turn. */
  function AfterWithCanvasChain(s: BuilderState, cs: seq<Option<Canvas>>): (r: BuilderState)
    reads CanvasesIn(cs)
    ensures r.window.rest == s.window.rest && r.platformSpecific.rest == s.platformSpecific.rest
    ensures s.window.innerSize.Some? ==> r.window.innerSize == s.window.innerSize
    decreases |cs|
  {
    if cs == [] then s else AfterWithCanvasChain(AfterWithCanvas(s, cs[0]), cs[1..])
  }

  /** The last call decides the recorded canvas. */
  lemma {:induction false} ChainLastCanvasWins(s: BuilderState, cs: seq<Option<Canvas>>)
    requires cs != []
    ensures AfterWithCanvasChain(s, cs).platformSpecific.canvas == cs[|cs| - 1]
    decreases |cs|
  {
    if |cs| > 1 {
      ChainLastCanvasWins(AfterWithCanvas(s, cs[0]), cs[1..]);
    }
  }

  /**
   * Each call looks at the inner size as it is at that call, so a chain sizes
   * an unsized builder from the first canvas supplied, and later canvases,
   * like an explicit size, never change it.
   */
  lemma {:induction false} ChainSizedByFirstCanvas(s: BuilderState, cs: seq<Option<Canvas>>)
    ensures AfterWithCanvasChain(s, cs).window.innerSize
         == s.window.innerSize.Or(OfferedSize(FirstCanvas(cs)))
    decreases |cs|
  {
    if cs != [] {
      ChainSizedByFirstCanvas(AfterWithCanvas(s, cs[0]), cs[1..]);
    }
  }

  // ---------------------------------------------------------------------------
  // The size is a snapshot

  /**
   * The canvas's dimensions are read once, at the call: when the page later
   * resizes the canvas, the configured inner size keeps the old dimensions
   * while the recorded handle is the same, resized, node.
   */
  method ResizeAfterWithCanvas(s: BuilderState, w: u32, h: u32, w2: u32, h2: u32)
    returns (b: WindowBuilder, c: Canvas)
    requires s.window.innerSize.None?
    ensures c.width == w2 && c.height == h2
    ensures b.platformSpecific.canvas == Some(c)
    ensures b.window.innerSize == Some(Logical(LogicalSize(w as real, h as real)))
  {
    c := new Canvas(w, h);
    b := new WindowBuilder(s);
    b := b.WithCanvas(Some(c));
    c.width, c.height := w2, h2;
  }
}
