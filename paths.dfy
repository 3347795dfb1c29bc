/**
 * The application state record and the asset path builder (`buildImagePath`).
 */
module Paths {
  import opened Wrappers

  /** The three overlay check boxes. */
  datatype OverlayFlags = OverlayFlags(nameplate: bool, frontarc: bool, reararc: bool)

  /** A snapshot of the global `state` record. */
  datatype UiState = UiState(
    selectedSize: string,
    selectedFaction: string,
    overlays: OverlayFlags,
    pilotName: string,
    initiative: string)

  /** The record the application starts with. */
  const InitialState := UiState("small", "none", OverlayFlags(false, false, false), "", "")

  /** The overlay layers, each with the key used in its file name. */
  datatype Overlay = RearArc | FrontArc | Nameplate
  {
    function Key(): string
    {
      match this
      case RearArc => "reararc"
      case FrontArc => "frontarc"
      case Nameplate => "nameplate"
    }

    /** Position of this overlay in the fixed drawing order. */
    function Rank(): nat
    {
      match this
      case RearArc => 0
      case FrontArc => 1
      case Nameplate => 2
    }

    /** Whether this overlay's check box is ticked. */
    function Selected(flags: OverlayFlags): bool
    {
      match this
      case RearArc => flags.reararc
      case FrontArc => flags.frontarc
      case Nameplate => flags.nameplate
    }
  }

  /** Bottom to top: rear arc, front arc, then the nameplate. */
  const DrawOrder: seq<Overlay> := [RearArc, FrontArc, Nameplate]

  /** The base tile file of a size. */
  function BasePath(size: string): string
  {
    "./img/ship-tile-" + size + ".png"
  }

  /** The file of an overlay of a faction at a size. */
  function OverlayPath(faction: string, size: string, overlay: string): string
  {
    "./img/ship-tile-" + faction + "-" + size + "-" + overlay + ".png"
  }

  /**
   * `buildImagePath(overlay)`: no path without a size; the base tile when
   * `overlay` is absent or empty (both falsy); no overlay path for the
   * faction "none"; otherwise the faction's overlay file.
   */
  function BuildImagePath(st: UiState, overlay: Option<string>): Option<string>
  {
    if st.selectedSize == [] then None
    else if overlay == None || overlay == Some([]) then Some(BasePath(st.selectedSize))
    else if st.selectedFaction == "none" then None
    else Some(OverlayPath(st.selectedFaction, st.selectedSize, overlay.value))
  }

  /** The path of one of the three overlays. */
  function OverlayImagePath(st: UiState, o: Overlay): Option<string>
  {
    BuildImagePath(st, Some(o.Key()))
  }

  /** Each overlay sits at its own place in the drawing order. */
  lemma DrawOrderRank(o: Overlay)
    ensures 0 <= o.Rank() < |DrawOrder| && DrawOrder[o.Rank()] == o
    ensures o in DrawOrder
  {
  }

  /**
   * The base path depends on the size alone: two states with the same size
   * get the same base path, whatever their faction, overlays and text.
   */
  lemma BasePathOnlySize(st: UiState, st': UiState)
    requires st.selectedSize == st'.selectedSize != []
    ensures BuildImagePath(st, None) == BuildImagePath(st', None) == Some(BasePath(st.selectedSize))
  {
  }

  /** Without a size no path is built; with the faction "none" no overlay path is built. */
  lemma NoPathWithoutSizeOrFaction(st: UiState, o: Overlay)
    ensures st.selectedSize == [] ==> BuildImagePath(st, None) == None && OverlayImagePath(st, o) == None
    ensures st.selectedFaction == "none" ==> OverlayImagePath(st, o) == None
  {
  }

  /** An overlay path, when there is one, names the faction, the size and the overlay key. */
  lemma OverlayPathShape(st: UiState, o: Overlay)
    ensures OverlayImagePath(st, o).Some? <==> st.selectedSize != [] && st.selectedFaction != "none"
    ensures OverlayImagePath(st, o).Some? ==>
      OverlayImagePath(st, o).value == "./img/ship-tile-" + st.selectedFaction + "-" + st.selectedSize + "-" + o.Key() + ".png"
  {
  }

  /** Different sizes have different base tiles. */
  lemma BasePathInjective(size: string, size': string)
    requires BasePath(size) == BasePath(size')
    ensures size == size'
  {
    var p := BasePath(size);
    assert |size| == |size'|;
    assert size == p[16..16 + |size|];
    assert size' == p[16..16 + |size'|];
  }

  /** The three overlays of one state never share a file, nor with the base tile. */
  lemma OverlayPathsDistinct(st: UiState, o: Overlay, o': Overlay)
    requires OverlayImagePath(st, o).Some? && o != o'
    ensures OverlayImagePath(st, o) != OverlayImagePath(st, o')
    ensures OverlayImagePath(st, o) != BuildImagePath(st, None)
  {
    var p := OverlayImagePath(st, o).value;
    var p' := OverlayImagePath(st, o').value;
    assert |p| - |o.Key()| == |p'| - |o'.Key()|;
    assert |o.Key()| != |o'.Key()|;
  }
}
