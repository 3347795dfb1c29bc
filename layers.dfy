/**
 * Image loading as an oracle, and the choice and order of the overlay layers
 * drawn over the base tile.
 */
module Layers {
  import opened Wrappers
  import opened Paths

  /** The intrinsic size of an image file. */
  datatype Pixels = Pixels(width: nat, height: nat)

  /** The files that load: a path missing from the map fails to load. */
  type Assets = map<string, Pixels>

  /** A loaded image: its source path and its size. */
  datatype Image = Image(src: string, width: nat, height: nat)

  /**
   * `loadImage(src)`: a null or empty path gives null without a request; a
   * path that fails to load gives null as well (never an error).
   */
  function LoadImage(src: Option<string>, assets: Assets): Option<Image>
  {
    match src
    case None => None
    case Some(p) =>
      if p != [] && p in assets then Some(Image(p, assets[p].width, assets[p].height)) else None
  }

  /**
   * Loading never fails hard: no path, or an empty one, gives no image; a
   * path gives an image exactly when its file is there, with that file's size.
   */
  lemma LoadImageSpec(src: Option<string>, assets: Assets)
    ensures src == None || src == Some([]) ==> LoadImage(src, assets) == None
    ensures src.Some? && src.value != [] ==> (LoadImage(src, assets).Some? <==> src.value in assets)
    ensures LoadImage(src, assets).Some? ==>
      LoadImage(src, assets).value == Image(src.value, assets[src.value].width, assets[src.value].height)
  {
  }

  /** The base tile of a state, if it loads. */
  function BaseImage(st: UiState, assets: Assets): Option<Image>
  {
    LoadImage(BuildImagePath(st, None), assets)
  }

  /** The image of an overlay of a state, if it loads. */
  function OverlayImage(st: UiState, assets: Assets, o: Overlay): Option<Image>
  {
    LoadImage(OverlayImagePath(st, o), assets)
  }

  /** An overlay is drawn when its box is ticked and its image loads. */
  predicate Shown(st: UiState, assets: Assets, o: Overlay)
  {
    o.Selected(st.overlays) && OverlayImage(st, assets, o).Some?
  }

  /** Strictly increasing in drawing rank: in drawing order, without repeats. */
  predicate InDrawOrder(os: seq<Overlay>)
  {
    forall i, j :: 0 <= i < j < |os| ==> os[i].Rank() < os[j].Rank()
  }

  /** The overlays of `kinds` that are shown, keeping their relative order. */
  function KeepShown(st: UiState, assets: Assets, kinds: seq<Overlay>): (r: seq<Overlay>)
    ensures forall o :: o in r <==> o in kinds && Shown(st, assets, o)
  {
    if kinds == [] then []
    else
      var rest := KeepShown(st, assets, kinds[1..]);
      assert forall o :: o in kinds <==> o == kinds[0] || o in kinds[1..];
      if Shown(st, assets, kinds[0]) then [kinds[0]] + rest else rest
  }

  /** Keeping some of a list in drawing order leaves it in drawing order. */
  lemma {:induction false} KeepShownInOrder(st: UiState, assets: Assets, kinds: seq<Overlay>)
    requires InDrawOrder(kinds)
    ensures InDrawOrder(KeepShown(st, assets, kinds))
  {
    if kinds != [] {
      var rest := KeepShown(st, assets, kinds[1..]);
      KeepShownInOrder(st, assets, kinds[1..]);
      forall j | 0 <= j < |rest| ensures kinds[0].Rank() < rest[j].Rank() {
        assert rest[j] in kinds[1..];
        var k :| 0 <= k < |kinds[1..]| && kinds[1..][k] == rest[j];
        assert kinds[k + 1] == rest[j];
      }
    }
  }

  /** The overlays drawn over the base tile, bottom to top. */
  function DrawnOverlays(st: UiState, assets: Assets): seq<Overlay>
  {
    KeepShown(st, assets, DrawOrder)
  }

  /** The filter over the drawing order, written out one overlay at a time. */
  lemma DrawnOverlaysUnfold(st: UiState, assets: Assets)
    ensures DrawnOverlays(st, assets) ==
      (if Shown(st, assets, RearArc) then [RearArc] else []) +
      (if Shown(st, assets, FrontArc) then [FrontArc] else []) +
      (if Shown(st, assets, Nameplate) then [Nameplate] else [])
  {
    var n := KeepShown(st, assets, [Nameplate]);
    assert [Nameplate][1..] == [];
    assert KeepShown(st, assets, []) == [];
    assert n == if Shown(st, assets, Nameplate) then [Nameplate] else [];
    assert [FrontArc, Nameplate][1..] == [Nameplate];
    var fn := KeepShown(st, assets, [FrontArc, Nameplate]);
    assert fn == (if Shown(st, assets, FrontArc) then [FrontArc] else []) + n;
    assert DrawOrder[1..] == [FrontArc, Nameplate];
  }

  /** The images of the drawn overlays, bottom to top. */
  function OverlayImages(st: UiState, assets: Assets): seq<Image>
  {
    var d := DrawnOverlays(st, assets);
    assert forall i :: 0 <= i < |d| ==> d[i] in d && Shown(st, assets, d[i]);
    seq(|d|, i requires 0 <= i < |d| => OverlayImage(st, assets, d[i]).value)
  }

  /**
   * The drawn overlays are exactly those ticked whose image loads, each once,
   * in the order rear arc, front arc, nameplate.
   */
  lemma DrawnOverlaysSpec(st: UiState, assets: Assets)
    ensures forall o :: o in DrawnOverlays(st, assets) <==> o.Selected(st.overlays) && OverlayImage(st, assets, o).Some?
    ensures InDrawOrder(DrawnOverlays(st, assets))
    ensures |DrawnOverlays(st, assets)| <= 3
  {
    var d := DrawnOverlays(st, assets);
    forall o | true ensures o in DrawOrder { DrawOrderRank(o); }
    KeepShownInOrder(st, assets, DrawOrder);
    DrawnOverlaysUnfold(st, assets);
  }

  /**
   * Leaving out one overlay (its box unticked or its file missing) removes
   * just that overlay: the others stay, in the same relative order.
   */
  lemma SkipKeepsOrder(st: UiState, assets: Assets, st': UiState, assets': Assets, skipped: Overlay)
    requires !Shown(st', assets', skipped)
    requires forall o :: o != skipped ==> (Shown(st', assets', o) <==> Shown(st, assets, o))
    ensures DrawnOverlays(st', assets') == Without(DrawnOverlays(st, assets), skipped)
  {
    KeepShownWithout(st, assets, st', assets', skipped, DrawOrder);
  }

  /** Filtering with one overlay dropped is filtering and then removing that overlay. */
  lemma {:induction false} KeepShownWithout(st: UiState, assets: Assets, st': UiState, assets': Assets,
                                            skipped: Overlay, kinds: seq<Overlay>)
    requires !Shown(st', assets', skipped)
    requires forall o :: o != skipped ==> (Shown(st', assets', o) <==> Shown(st, assets, o))
    ensures KeepShown(st', assets', kinds) == Without(KeepShown(st, assets, kinds), skipped)
  {
    if kinds != [] {
      KeepShownWithout(st, assets, st', assets', skipped, kinds[1..]);
      var rest := KeepShown(st, assets, kinds[1..]);
      if Shown(st, assets, kinds[0]) {
        assert ([kinds[0]] + rest)[1..] == rest;
      }
    }
  }

  /** `os` with every occurrence of `x` removed. */
  function Without(os: seq<Overlay>, x: Overlay): (r: seq<Overlay>)
    ensures forall o :: o in r <==> o in os && o != x
  {
    if os == [] then []
    else if os[0] == x then Without(os[1..], x)
    else [os[0]] + Without(os[1..], x)
  }

  /** With the faction "none" no overlay is drawn, whatever is ticked or available. */
  lemma NoFactionNoOverlays(st: UiState, assets: Assets)
    requires st.selectedFaction == "none"
    ensures DrawnOverlays(st, assets) == []
    ensures OverlayImages(st, assets) == []
  {
    DrawnOverlaysUnfold(st, assets);
  }

  /** All three ticked and available: all three are drawn, rear arc first and nameplate last. */
  lemma AllOverlaysDrawn(st: UiState, assets: Assets)
    requires forall o: Overlay :: Shown(st, assets, o)
    ensures DrawnOverlays(st, assets) == [RearArc, FrontArc, Nameplate]
  {
    assert Shown(st, assets, RearArc) && Shown(st, assets, FrontArc) && Shown(st, assets, Nameplate);
    DrawnOverlaysUnfold(st, assets);
  }

  /** Each overlay image is the loaded file of the overlay in that place. */
  lemma OverlayImagesSpec(st: UiState, assets: Assets)
    ensures |OverlayImages(st, assets)| == |DrawnOverlays(st, assets)|
    ensures forall i :: 0 <= i < |OverlayImages(st, assets)| ==>
      OverlayImagePath(st, DrawnOverlays(st, assets)[i]) == Some(OverlayImages(st, assets)[i].src) &&
      OverlayImages(st, assets)[i].src in assets
  {
    var d := DrawnOverlays(st, assets);
    assert forall i :: 0 <= i < |d| ==> d[i] in d && Shown(st, assets, d[i]);
  }

  /** The images of `OverlayImages`, written out one overlay at a time. */
  lemma OverlayImagesUnfold(st: UiState, assets: Assets)
    ensures OverlayImages(st, assets) ==
      (if Shown(st, assets, RearArc) then [OverlayImage(st, assets, RearArc).value] else []) +
      (if Shown(st, assets, FrontArc) then [OverlayImage(st, assets, FrontArc).value] else []) +
      (if Shown(st, assets, Nameplate) then [OverlayImage(st, assets, Nameplate).value] else [])
  {
    DrawnOverlaysUnfold(st, assets);
  }

  /** One operation on the 2D context of the preview canvas, in drawing order. */
  datatype DrawOp =
    | DrawImage(image: Image)
      /** Centred text; `x`, `y` and `fontSize` in pixels. */
    | FillText(text: string, x: real, y: real, fontSize: real)

  /** Drawing each image at the origin, in turn. */
  function DrawAll(imgs: seq<Image>): (ops: seq<DrawOp>)
    ensures |ops| == |imgs|
  {
    seq(|imgs|, i requires 0 <= i < |imgs| => DrawImage(imgs[i]))
  }
}
