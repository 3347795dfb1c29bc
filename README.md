# X-Wing custom base creator: the preview engine, in Dafny

The X-Wing custom base creator builds a picture of a miniature's base. It
stacks a base tile for the chosen size (small, medium or large) and up to
three faction overlays: rear arc, front arc and nameplate. Then it writes
the pilot name and the initiative over the nameplate and saves the result
as a PNG file.

This project models the engine behind that picture in `app.js`:

- the state record and the handlers that update it;
- `buildImagePath`, which turns the state into asset paths;
- `updatePreview`, which picks the layers and their order, sizes the canvas
  to the base tile and builds the summary line under the preview;
- `drawTextOverlays`, which picks a layout profile per size and draws the
  non-blank text fields;
- `handleExport`, which refuses to export without a size and builds the
  file name.

Image loading is an input here. `Layers.Assets` maps each path that loads
to the pixel size of its file. A path missing from the map fails to load,
just as `loadImage` resolves to `null` on `onerror`. The canvas is the list
of drawing operations made since it was last cleared, together with its
width and height.

Files, leaves first:

- `wrappers.dfy`: `Option`.
- `text.dfy`: upper-casing one character, `split` and `join`, `trim`, and
  the decimal form of a timestamp.
- `paths.dfy`: the state record, the three overlays and `buildImagePath`.
- `layers.dfy`: image loading, and the choice and order of the overlays
  that are drawn.
- `infoline.dfy`: the summary line.
- `layout.dfy`: the `sizeConfig` profiles and the text drawing.
- `export.dfy`: the export file name, and a reader that takes it apart.
- `preview.dfy`: `Render`, which gives what one run of `updatePreview`
  leaves on the page.
- `app.dfy`: the `App` class, holding the state fields and the preview
  fields, with the handlers, `UpdatePreview`, `DrawTextOverlays` and
  `HandleExport`.

In `app.js`, every asset is a file `./img/ship-tile-...png`, the nameplate
is a third overlay with its own check box, and export checks only that a
size is selected.

## Model

| member | source | states |
|---|---|---|
| `Paths.BasePathOnlySize` | app.js:56-62 | With a size selected, the base path is `./img/ship-tile-{size}.png`, so two states with the same size share it whatever their faction, overlays or text |
| `Paths.NoPathWithoutSizeOrFaction` | app.js:56-65 | Without a size no path is built, base or overlay; with the faction "none" no overlay path is built |
| `Paths.OverlayPathShape` | app.js:56-67 | An overlay path exists exactly when a size is selected and the faction is not "none", and it is then `./img/ship-tile-{faction}-{size}-{overlay}.png` |
| `Paths.BasePathInjective` | app.js:60-62 | Different sizes give different base tile files |
| `Paths.OverlayPathsDistinct` | app.js:60-67 | The three overlays of one state never share a file with each other or with the base tile |
| `Layers.LoadImageSpec` | app.js:71-83 | A null or empty path gives no image; otherwise an image comes back exactly when the file loads, with that file's path and size; loading never fails hard |
| `Layers.KeepShown` | app.js:129-144 | Keeping the overlays that are ticked and load keeps exactly those, and no others |
| `Layers.KeepShownInOrder` | app.js:128-144 | Skipping overlays never reorders the rest: a list in drawing order stays in drawing order |
| `Layers.DrawnOverlaysUnfold` | app.js:129-144 | The drawn overlays are rear arc, front arc and nameplate, in that order, each included only if it is ticked and its image loads |
| `Layers.DrawnOverlaysSpec` | app.js:128-144 | An overlay is drawn if and only if it is ticked and its image loads; each at most once, in the order rear arc, front arc, nameplate; at most three |
| `Layers.KeepShownWithout` | app.js:129-144 | Dropping one overlay from the selection filters the list exactly as removing it from the filtered list does |
| `Layers.SkipKeepsOrder` | app.js:128-144 | An overlay left out, because its box is unticked or its file is missing, removes just that overlay; the others keep their relative order |
| `Layers.NoFactionNoOverlays` | app.js:65 | With the faction "none" no overlay is drawn, whatever is ticked or available |
| `Layers.AllOverlaysDrawn` | app.js:128-144 | With all three ticked and loaded, the overlays are drawn as exactly rear arc, front arc, nameplate |
| `Layers.OverlayImagesSpec` | app.js:131-144 | The overlay images are the loaded files of the drawn overlays, one per overlay, in the same order |
| `Layers.OverlayImagesUnfold` | app.js:129-144 | The overlay image list is built by three conditional appends: rear arc, front arc, nameplate |
| `Text.Split` | app.js:106 | `split('-')` gives at least one piece, and no piece contains the separator |
| `Text.JoinSplit` | app.js:106 | Joining the pieces of a split with the separator gives back the original string |
| `Text.TrimStart` | app.js:204 | Removes exactly the leading white space: the result is a suffix that starts with a non-space, and everything cut off is white space |
| `Text.TrimEnd` | app.js:204 | Removes exactly the trailing white space: the result is a prefix that ends with a non-space, and everything cut off is white space |
| `Text.HasTextIff` | app.js:204-222 | The guard `s && s.trim() !== ''` holds exactly when `s` has a character that is not white space |
| `Text.Decimal` | app.js:253 | A timestamp is written as a non-empty string of decimal digits with no leading zero |
| `Text.DecimalRoundTrip` | app.js:253 | Reading the decimal digits of a timestamp back gives the timestamp |
| `InfoLine.SizeTextSpec` | app.js:103 | The size is shown with its first letter upper-cased and the rest unchanged |
| `InfoLine.CapWordsStep` | app.js:106 | Consuming one character of the faction name either turns a hyphen into a space and starts a new word, or emits that character, upper-cased only at a word start |
| `InfoLine.CapWordsAt` | app.js:106 | Character by character, the split-capitalise-join has the faction's length: a hyphen becomes a space, a word's first letter is upper-cased and every other character is kept |
| `InfoLine.FactionTextAt` | app.js:104-106 | For any faction but "none", the shown name has the faction's length, a space for each hyphen and an upper-case first letter for each hyphen-separated word |
| `InfoLine.OverlayLabelsSpec` | app.js:108-113 | The overlay suffix is empty if and only if no box is ticked; otherwise it names each ticked overlay exactly once, and only those |
| `InfoLine.LabelsReverseDrawOrder` | app.js:108-144 | When every ticked overlay loads, the summary lists the drawn overlays from the top layer down (Nameplate, Front Arc, Rear Arc): the reverse of the drawing order |
| `InfoLine.InfoTextSpec` | app.js:92-114 | Without a size the line is "No base selected". Otherwise it starts with the size, first letter upper-cased, and " Base \| ". Then comes the faction: "No Faction" for "none", else hyphens turned to spaces and each word capitalised. The tail is empty exactly when no box is ticked, and otherwise is " \| Overlays: " and the ticked labels, Nameplate first, Rear Arc last |
| `Layout.ProfileForSpec` | app.js:174-201 | The profile is the size's own entry for small, medium and large and the small one for anything else; every profile centres the name at 0.55 of the width, on the initiative's line, right of it and in a smaller font |
| `Layout.ProfilesScale` | app.js:174-199 | Larger bases put the text line lower and use smaller fonts relative to the width |
| `Layout.TextOpsSpec` | app.js:201-237 | The untrimmed pilot name is drawn exactly when it is not blank, at 0.55 of the width on its profile's line. The initiative is drawn likewise, at its own anchor, always after the name. Nothing else is drawn |
| `Export.ExportFileNameRoundTrip` | app.js:253 | For every size, the size and the timestamp can be read back from `xwing-base-{size}-{timestamp}.png`: the timestamp is the digits after the last hyphen |
| `Export.ExportFileNameInjective` | app.js:253 | Two exports get the same file name only when the size and the timestamp are the same, for any sizes |
| `Preview.RenderPlaceholder` | app.js:92-125 | Exactly one of placeholder and canvas shows. The placeholder shows if and only if there is no size or the base tile does not load, and then the canvas is left untouched. The summary line does not depend on which files load |
| `Preview.CompositeOrder` | app.js:150-163 | The composite draws the base tile first, then each overlay image in order, then only text |
| `Preview.RenderLayers` | app.js:116-163 | With the base tile loaded, the canvas takes the base tile's width and height and draws the base tile, then each drawn overlay in drawing order, then the text |
| `Preview.RenderIdempotent` | app.js:146-163 | Rendering twice with nothing changed gives the same page; a rendered composite does not depend on what the canvas showed before |
| `App.App.constructor` | app.js:2-12 | The state starts as small, faction "none", no overlays, no text. The page starts with the placeholder shown and the canvas hidden, 0 by 0 and empty |
| `App.App.Initialize` | app.js:272-282 | The first preview is a render of the initial state |
| `App.App.SelectSize` | app.js:15-31 | For one of the three sizes that have a button, only the size changes, then the page is re-rendered |
| `App.App.FactionChange` | app.js:34-38 | Only the faction changes, then the page is re-rendered |
| `App.App.OverlayChange` | app.js:41-46 | Only the three overlay flags change, then the page is re-rendered |
| `App.App.PilotInfoChange` | app.js:49-53 | Only the pilot name and the initiative change, then the page is re-rendered |
| `App.App.UpdatePreview` | app.js:86-168 | The state is unchanged, and the page becomes `Render` of the state, the files that load and the previous canvas |
| `App.App.LoadOverlayImages` | app.js:127-144 | The conditional pushes give exactly the images of the drawn overlays, in drawing order |
| `App.App.DrawComposite` | app.js:146-163 | The canvas takes the base tile's size and holds the base tile, each overlay in turn, then the text |
| `App.App.DrawTextOverlays` | app.js:171-238 | Appends exactly the text operations of the state's profile: the name, then the initiative, each only if not blank |
| `App.App.HandleExport` | app.js:241-258 | With no size selected the outcome is the alert "Please select a base size first" and nothing is saved. Otherwise the file is `xwing-base-{size}-{timestamp}.png`, and the name gives the size and the timestamp back |

## Left out

- DOM work is not modelled: button highlighting, class toggling, and the hidden `preview-image` element (always hidden). The handlers take the values they read from the form as parameters.
- The keyboard accessibility listener and the DOM-ready start-up are not modelled; `Initialize` is the `initialize` call itself.
- Real image loading (`new Image`, `onload`/`onerror`) is replaced by the `Assets` map. Each load during one render has a fixed outcome.
- Overlapping asynchronous runs of `updatePreview` are not modelled. They can race, and the run that finishes last sets the canvas. In the model each run completes before the next begins.
- Canvas styling is not modelled: fonts, colours, text alignment, shadows, `save`/`restore`. A text operation records the string, its anchor and its font size.
- Layout.TextOps: anchors and font sizes are exact `real` products of a fraction and the canvas size, not JavaScript floating point.
- `canvas.toBlob`, `URL.createObjectURL`, the link click and `console.log` are not modelled; `Date.now()` is the `timestamp` parameter.
- Text.Decimal: models a timestamp as a non-negative integer written in plain decimal; JavaScript's exponent form for numbers of 10^21 and more is not modelled.
- Text.Upper: upper-cases ASCII letters only; JavaScript's `toUpperCase` also maps letters of other scripts and can lengthen a string (ß becomes SS).
- Layout.ProfileFor: falls back to the small profile for every size outside the table. In JavaScript, `sizeConfig[size]` also finds inherited object properties such as "constructor"; the size buttons never produce those.
- App.App.constructor: the page's initial markup is not part of this model. The constructor starts with the placeholder shown, the canvas hidden and empty (0 by 0), and an empty summary line.
- App.App.SelectSize: requires one of the sizes "small", "medium" or "large", the three buttons that call it. For any other size `app.js` stores the size, then fails when it looks up the missing button, and never re-renders; that failure is not modelled.
