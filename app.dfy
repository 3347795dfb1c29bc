/**
 * The application object: the global state record, updated field by field
 * by the input handlers, and the preview elements each update redraws.
 */
module App {
  import opened Wrappers
  import Text
  import opened Paths
  import opened Layers
  import opened InfoLine
  import opened Layout
  import opened Export
  import opened Preview

  class App {
    // The state record.
    var selectedSize: string
    var selectedFaction: string
    var overlays: OverlayFlags
    var pilotName: string
    var initiative: string

    // The preview: the summary line, which of placeholder and canvas shows,
    // and the canvas.
    var infoText: string
    var placeholderVisible: bool
    var canvasVisible: bool
    var canvasWidth: nat
    var canvasHeight: nat
    var canvasOps: seq<DrawOp>

    /** The state record as a value. */
    function State(): UiState
      reads this
    {
      UiState(selectedSize, selectedFaction, overlays, pilotName, initiative)
    }

    /** The canvas as a value. */
    function CanvasValue(): Canvas
      reads this
    {
      Canvas(canvasWidth, canvasHeight, canvasOps)
    }

    /** What the page shows. */
    function PageView(): View
      reads this
    {
      View(infoText, placeholderVisible, canvasVisible, CanvasValue())
    }

    /**
     * The state the application starts with: small base, no faction, no
     * overlays, no text; the page shows the placeholder and an empty canvas.
     */
    constructor ()
      ensures State() == InitialState
      ensures placeholderVisible && !canvasVisible && infoText == []
      ensures canvasWidth == 0 && canvasHeight == 0 && canvasOps == []
    {
      selectedSize, selectedFaction := "small", "none";
      overlays := OverlayFlags(false, false, false);
      pilotName, initiative := "", "";
      infoText, placeholderVisible, canvasVisible := "", true, false;
      canvasWidth, canvasHeight, canvasOps := 0, 0, [];
    }

    /** `initialize`: the first preview. */
    method Initialize(assets: Assets)
      modifies this
      ensures State() == old(State())
      ensures PageView() == Render(State(), assets, old(CanvasValue()))
    {
      UpdatePreview(assets);
    }

    /**
     * `handleSelectSize`: called by the three size buttons only; any other
     * size has no button to highlight, and the handler fails before it
     * re-renders.
     */
    method SelectSize(size: string, assets: Assets)
      requires size == "small" || size == "medium" || size == "large"
      modifies this
      ensures State() == old(State()).(selectedSize := size)
      ensures PageView() == Render(State(), assets, old(CanvasValue()))
    {
      selectedSize := size;
      UpdatePreview(assets);
    }

    /** `handleFactionChange` */
    method FactionChange(faction: string, assets: Assets)
      modifies this
      ensures State() == old(State()).(selectedFaction := faction)
      ensures PageView() == Render(State(), assets, old(CanvasValue()))
    {
      selectedFaction := faction;
      UpdatePreview(assets);
    }

    /** `handleOverlayChange`: all three boxes are read again. */
    method OverlayChange(nameplate: bool, frontarc: bool, reararc: bool, assets: Assets)
      modifies this
      ensures State() == old(State()).(overlays := OverlayFlags(nameplate, frontarc, reararc))
      ensures PageView() == Render(State(), assets, old(CanvasValue()))
    {
      overlays := overlays.(nameplate := nameplate);
      overlays := overlays.(frontarc := frontarc);
      overlays := overlays.(reararc := reararc);
      UpdatePreview(assets);
    }

    /** `handlePilotInfoChange`: both fields are read again. */
    method PilotInfoChange(name: string, init: string, assets: Assets)
      modifies this
      ensures State() == old(State()).(pilotName := name, initiative := init)
      ensures PageView() == Render(State(), assets, old(CanvasValue()))
    {
      pilotName := name;
      initiative := init;
      UpdatePreview(assets);
    }

    /**
     * `updatePreview`: sets the summary line; loads the base tile and stops
     * at the placeholder if there is none; loads the ticked overlays in the
     * order rear arc, front arc, nameplate, keeping those that load; sizes
     * the canvas to the base tile and draws base, overlays and text.
     */
    method UpdatePreview(assets: Assets)
      modifies this
      ensures State() == old(State())
      ensures PageView() == Render(State(), assets, old(CanvasValue()))
    {
      if selectedSize == [] {
        placeholderVisible := true;
        canvasVisible := false;
        infoText := NoBaseText;
        return;
      }
      placeholderVisible := false;
      infoText := InfoText(State());

      var baseImage := LoadImage(BuildImagePath(State(), None), assets);
      if baseImage.None? {
        placeholderVisible := true;
        canvasVisible := false;
        return;
      }
      var base := baseImage.value;

      var overlayImages := LoadOverlayImages(assets);
      DrawComposite(base, overlayImages);
      canvasVisible := true;
    }

    /**
     * The overlay loading in `updatePreview`: each ticked overlay, in the
     * order rear arc, front arc, nameplate, is kept when its image loads.
     */
    method LoadOverlayImages(assets: Assets) returns (overlayImages: seq<Image>)
      ensures overlayImages == OverlayImages(State(), assets)
    {
      overlayImages := [];
      if overlays.reararc {
        var img := LoadImage(BuildImagePath(State(), Some("reararc")), assets);
        if img.Some? { overlayImages := overlayImages + [img.value]; }
      }
      if overlays.frontarc {
        var img := LoadImage(BuildImagePath(State(), Some("frontarc")), assets);
        if img.Some? { overlayImages := overlayImages + [img.value]; }
      }
      if overlays.nameplate {
        var img := LoadImage(BuildImagePath(State(), Some("nameplate")), assets);
        if img.Some? { overlayImages := overlayImages + [img.value]; }
      }
      OverlayImagesUnfold(State(), assets);
    }

    /**
     * The drawing in `updatePreview`: the canvas takes the base tile's size
     * (which clears it), then the base tile, each overlay in turn and the
     * text are drawn.
     */
    method DrawComposite(base: Image, overlayImages: seq<Image>)
      modifies this`canvasWidth, this`canvasHeight, this`canvasOps
      ensures CanvasValue() == Canvas(base.width, base.height,
                            [DrawImage(base)] + DrawAll(overlayImages) + TextOps(State(), base.width, base.height))
    {
      canvasWidth, canvasHeight := base.width, base.height;
      canvasOps := [];
      canvasOps := canvasOps + [DrawImage(base)];
      var i := 0;
      while i < |overlayImages|
        invariant 0 <= i <= |overlayImages|
        invariant canvasOps == [DrawImage(base)] + DrawAll(overlayImages[..i])
        invariant canvasWidth == base.width && canvasHeight == base.height
      {
        assert DrawAll(overlayImages[..i + 1]) == DrawAll(overlayImages[..i]) + [DrawImage(overlayImages[i])];
        canvasOps := canvasOps + [DrawImage(overlayImages[i])];
        i := i + 1;
      }
      assert overlayImages[..i] == overlayImages;
      DrawTextOverlays(canvasWidth, canvasHeight);
    }

    /**
     * `drawTextOverlays`: draws the pilot name and then the initiative, each
     * only when it is not blank, at the anchors of the selected size's
     * profile (the small one when the size has none).
     */
    method DrawTextOverlays(width: nat, height: nat)
      modifies this`canvasOps
      ensures canvasOps == old(canvasOps) + TextOps(State(), width, height)
    {
      var config := ProfileFor(selectedSize);
      if pilotName != [] && Text.Trim(pilotName) != [] {
        canvasOps := canvasOps + [FillText(pilotName, At(config.nameX, width), At(config.nameY, height),
                                           At(config.nameFontSize, width))];
      }
      if initiative != [] && Text.Trim(initiative) != [] {
        canvasOps := canvasOps + [FillText(initiative, At(config.initiativeX, width), At(config.initiativeY, height),
                                           At(config.initiativeFontSize, width))];
      }
    }

    /**
     * `handleExport`: refuses with a message when no size is selected;
     * otherwise saves the canvas as "xwing-base-{size}-{timestamp}.png".
     */
    method HandleExport(timestamp: nat) returns (outcome: ExportOutcome)
      ensures outcome.Alert? <==> selectedSize == []
      ensures outcome.Alert? ==> outcome.message == NoSizeMessage
      ensures outcome.Download? ==> outcome.fileName == ExportFileName(selectedSize, timestamp)
      ensures outcome.Download? ==>
        ParseExportFileName(outcome.fileName) == Some((selectedSize, timestamp))
    {
      if selectedSize == [] {
        outcome := Alert(NoSizeMessage);
        return;
      }
      outcome := Download(ExportFileName(selectedSize, timestamp));
      ExportFileNameRoundTrip(selectedSize, timestamp);
    }
  }
}
