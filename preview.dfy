/**
 * What one run of `updatePreview` leaves on the page, as a function of the
 * state, the files that load and the canvas it started from.
 */
module Preview {
  import opened Wrappers
  import opened Paths
  import opened Layers
  import opened InfoLine
  import opened Layout

  /** The preview canvas: its size and what has been drawn since it was last cleared. */
  datatype Canvas = Canvas(width: nat, height: nat, ops: seq<DrawOp>)

  /** The parts of the page a render sets. */
  datatype View = View(infoText: string, placeholderVisible: bool, canvasVisible: bool, canvas: Canvas)

  /** The composite drawn on a freshly sized canvas: base, overlays bottom to top, then the text. */
  function Composite(st: UiState, assets: Assets, base: Image): Canvas
  {
    Canvas(base.width, base.height,
           [DrawImage(base)] + DrawAll(OverlayImages(st, assets)) + TextOps(st, base.width, base.height))
  }

  /**
   * The page after a render: without a size, or when the base tile does not
   * load, the placeholder shows and the canvas is hidden and left as it was;
   * otherwise the canvas is resized to the base tile and shows the composite.
   */
  function Render(st: UiState, assets: Assets, prev: Canvas): View
  {
    if st.selectedSize == [] then View(InfoText(st), true, false, prev)
    else
      match BaseImage(st, assets)
      case None => View(InfoText(st), true, false, prev)
      case Some(base) => View(InfoText(st), false, true, Composite(st, assets, base))
  }

  /**
   * Exactly one of placeholder and canvas shows; the placeholder shows when
   * there is no size or the base tile is missing, and then nothing is drawn.
   * The summary line does not depend on which files load.
   */
  lemma RenderPlaceholder(st: UiState, assets: Assets, prev: Canvas)
    ensures Render(st, assets, prev).placeholderVisible == !Render(st, assets, prev).canvasVisible
    ensures Render(st, assets, prev).placeholderVisible <==> st.selectedSize == [] || BasePath(st.selectedSize) !in assets
    ensures Render(st, assets, prev).placeholderVisible ==> Render(st, assets, prev).canvas == prev
    ensures Render(st, assets, prev).infoText == InfoText(st)
  {
  }

  /** Every text operation fills text. */
  lemma TextOpsAreText(st: UiState, width: nat, height: nat)
    ensures forall i :: 0 <= i < |TextOps(st, width, height)| ==> TextOps(st, width, height)[i].FillText?
  {
  }

  /** The composite: the base first, then the overlay images, then only text. */
  lemma CompositeOrder(st: UiState, assets: Assets, base: Image)
    ensures var c := Composite(st, assets, base);
      var imgs := OverlayImages(st, assets);
      && |c.ops| == 1 + |imgs| + |TextOps(st, base.width, base.height)|
      && c.ops[0] == DrawImage(base)
      && (forall i :: 1 <= i <= |imgs| ==> c.ops[i] == DrawImage(imgs[i - 1]))
      && (forall i :: 1 + |imgs| <= i < |c.ops| ==> c.ops[i].FillText?)
  {
    var c := Composite(st, assets, base);
    var imgs := OverlayImages(st, assets);
    var texts := TextOps(st, base.width, base.height);
    TextOpsAreText(st, base.width, base.height);
    var front := [DrawImage(base)] + DrawAll(imgs);
    assert c.ops == front + texts && |front| == 1 + |imgs|;
    forall i | 1 <= i <= |imgs| ensures c.ops[i] == DrawImage(imgs[i - 1]) {
      assert c.ops[i] == DrawAll(imgs)[i - 1];
    }
    forall i | 1 + |imgs| <= i < |c.ops| ensures c.ops[i].FillText? {
      assert (front + texts)[i] == texts[i - |front|];
    }
  }

  /**
   * With the base tile loaded, the canvas takes the base tile's size and
   * shows, bottom to top: the base tile, each drawn overlay in drawing
   * order, then the text. Every image is drawn before any text.
   */
  lemma RenderLayers(st: UiState, assets: Assets, prev: Canvas)
    requires st.selectedSize != [] && BasePath(st.selectedSize) in assets
    ensures var c := Render(st, assets, prev).canvas;
      var d := DrawnOverlays(st, assets);
      && c.width == assets[BasePath(st.selectedSize)].width
      && c.height == assets[BasePath(st.selectedSize)].height
      && c.ops[0] == DrawImage(Image(BasePath(st.selectedSize), c.width, c.height))
      && (forall i :: 1 <= i <= |d| ==>
            c.ops[i].DrawImage? && OverlayImagePath(st, d[i - 1]) == Some(c.ops[i].image.src))
      && (forall i :: 1 + |d| <= i < |c.ops| ==> c.ops[i].FillText?)
  {
    var base := BaseImage(st, assets).value;
    assert Render(st, assets, prev).canvas == Composite(st, assets, base);
    CompositeOrder(st, assets, base);
    OverlayImagesSpec(st, assets);
  }

  /**
   * Rendering again with nothing changed leaves the page as it is; and a
   * rendered composite never depends on what the canvas showed before.
   */
  lemma RenderIdempotent(st: UiState, assets: Assets, prev: Canvas, other: Canvas)
    ensures Render(st, assets, Render(st, assets, prev).canvas) == Render(st, assets, prev)
    ensures Render(st, assets, prev).canvasVisible ==> Render(st, assets, other) == Render(st, assets, prev)
  {
  }
}
