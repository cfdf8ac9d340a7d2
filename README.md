# Sticker packer: layer geometry and editor state, in Dafny

This project models the core of a browser-based sticker-pack editor. A sticker is a stack of
image layers on a 500 x 500 canvas. Each layer has an on-canvas box (position, size,
rotation) and a crop window into the intrinsic pixels of its image. The model covers:

- **Transform engine** (`transform.dfy`, module `Transform`). The pure functions that turn
  one pointer step into a partial patch of layer geometry: translate, rotate, aspect-keeping
  resize from a corner, crop resize from a corner, and crop-window pan. Patches are
  `Option` records, and `Merge` is the object spread `{...layer, ...patch}`. The numeric
  steps of the proofs live in `arith.dfy` (module `RealArith`).
- **Display geometry** (`display.dfy`, module `Display`). The CSS background a layer's box
  paints. It shows that the crop tools move the window over a painted image that itself
  stays put.
- **Pointer interaction** (`interaction.dfy`, module `Interaction`). The mode slot of the
  layer view; the string-tag dispatch of pointer moves; the working copy; and commit on
  release.
- **Editor session** (`editor.dfy`, module `Editor`). A class holding the layer list, the
  selection, the crop switch and the ids whose background removal is in flight. It has add,
  update, delete, toggle-crop, keyboard delete, and the start/complete halves of background
  removal and outlining.
- **Pack state** (`app.dfy`, module `App`). A class holding the open pack and the batch
  flag. It has the order-preserving set semantics of the pack's sticker ids, field updates,
  the route effect and the reset. The persistent store is a class with two keyed tables
  and a request trace (`store.dfy`, module `Store`).
- **Drop import** (`sticker_grid.dfy`, module `StickerGrid`). The fit-and-centre rule for a
  new layer (`fit.dfy`, module `Fit`, shared with the editor's add-layer), the drag-hover
  flag, and the import loop.
- **Batch background removal** (`batch.dfy`, module `Batch`). The guarded sequential pass
  over a pack's stickers. It is a nested loop proved against a prefix-recursive
  specification `Run`.

Modelling choices:

- Numbers are `real`.
- Image decoding, the removal and outline services, uuids, random emojis and the browser's
  trigonometry are parameters.
- Sequence helpers (`filter`, `Set` insertion order, append-unless-present) are in
  `lists.dfy`.

Three behaviours of the code worth knowing:

- The crop-handle drag does not keep the crop window inside the image (`CropCanLeaveImage`).
- Resize has no clamp (`ResizeCanInvert`).
- A failed batch pass leaves the processing flag raised (`CleanAllBackground`).

## Model

| member | source | states |
|---|---|---|
| Transform.Merge | src/components/editor/Image.tsx:79-121 | `{...prev, ...patch}`: a field present in the patch takes the patch's value, every other field keeps the layer's; id, content and intrinsic size never change |
| Transform.TranslateLayer | src/utils.ts:18-23 | the patch holds exactly `top` and `left`, shifted by dy and dx |
| Transform.TranslateComposes | src/utils.ts:18-23 | two successive translations equal one translation by the summed deltas |
| Transform.RotateLayer | src/utils.ts:25-33 | the patch holds only `rotation` |
| Transform.RotateIsAbsolute | src/utils.ts:25-33 | pointer straight above the centre gives rotation 0 (the `+ 90` measures from "up"); also records that the rotation does not depend on the previous one |
| Transform.ResizeLayer | src/utils.ts:35-50 | patch holds top/left/width/height; the larger-magnitude sign-normalised delta drives the size, ties go to the height; for bottom handles `top` is kept, otherwise `top+height`; for right handles `left` is kept, otherwise `left+width` |
| Transform.ResizeSize | src/utils.ts:38-40 | the larger-magnitude step drives its own axis (ties go to the height); the other axis always follows the old ratio, width = height x (old width / old height), so both sides are pinned; the quotient is the old ratio whenever the new height is nonzero |
| Transform.ResizeKeepsAspect | src/utils.ts:38-40 | on the resized layer, new width = new height x old ratio, and whenever the new height is nonzero new width / new height equals the old ratio |
| Transform.ResizeCanInvert | src/utils.ts:38-40 | no clamp: a 100 px box dragged 150 px inward from the bottom-right gets width -50 |
| Transform.LocalDeltaFacts | src/utils.ts:55-56 | the delta mapping is the identity at rotation 0, and maps an anti-diagonal step to zero when cos = sin, so it is not an inverse rotation |
| Transform.CropLayer | src/utils.ts:52-78 | patch holds the eight box and window fields; the new width is in [1, maxWidth] when maxWidth >= 1 and in (0, maxWidth] when maxWidth > 0 (same for height); window and box keep the corner opposite the handle fixed (bottom/right handles keep origin, others keep origin + size) |
| Transform.CropFollowsPointer | src/utils.ts:53-60 | the new width is old width + the mapped horizontal step when that lies in [1, maxWidth], 1 when it falls below 1, maxWidth when it exceeds maxWidth; the same for height with the mapped vertical step |
| Transform.CropWindowShare | src/utils.ts:57-62 | the new window size is the new box size's share of the projected full size, times the intrinsic size |
| Transform.CropWindowSize | src/utils.ts:57-62 | the new crop window size lies in (0, intrinsic size] |
| Transform.ClampNonzero | src/utils.ts:59-60 | the clamped display size is never 0 |
| Transform.CropKeepsImageFixed | src/utils.ts:57-66 | after a crop drag the projected full size `_width/croppedWidth*width` is unchanged, and so is the canvas position of the uncropped image's corner |
| Transform.CropKeepsLeftEdge | src/utils.ts:61-66 | horizontal half of the previous row, on the layer before and after |
| Transform.CropKeepsTopEdge | src/utils.ts:61-65 | vertical half of the previous row |
| Transform.CropAxis | src/utils.ts:57-66 | one axis of a crop drag on bare numbers: projected size and uncropped edge position unchanged |
| Transform.WiderWindow | src/utils.ts:57-64 | a display size larger than the current one takes a crop window larger than the current one |
| Transform.CropCanLeaveImage | src/utils.ts:59-64 | the crop origin is not clamped: for every window at the image's left edge, growing it from a left handle gives croppedLeft < 0 |
| Transform.CropTranslate | src/utils.ts:80-95 | patch holds exactly top/left/croppedLeft/croppedTop; croppedLeft >= 0 and <= `_width - croppedWidth` when that is >= 0 (same for top); top in [cornerTop, cornerTop + maxHeight - height] when maxHeight >= height (same for left) |
| Transform.PanFollowsPointer | src/utils.ts:80-91 | where no clamp bites, the box moves by exactly (dx, dy) and the window origin by the step scaled from projected to intrinsic pixels |
| Transform.PanStopsAtClamps | src/utils.ts:83-91 | where a clamp bites, the result sits at the bound it hit: window origin 0 below, intrinsic - window above (0 when the window is wider than the image); box at the projected image edge on either side |
| Transform.CropTranslateKeepsWindowInside | src/utils.ts:83-84 | a pan keeps a window that was inside the image inside it |
| Transform.CropTranslateKeepsImageFixed | src/utils.ts:80-94 | while no clamp bites, a pan moves box and window together and the uncropped image stays put |
| Transform.PanKeepsEdges | src/utils.ts:83-91 | both axes of the previous row, on the layer before and after |
| Transform.PanAxis | src/utils.ts:83-91 | one axis of an unclamped pan on bare numbers: the window shift projects back to exactly the box shift |
| Display.NegatedOffset | src/components/editor/Image.tsx:150-151 | the text `-${v}px` is a valid length exactly when v >= 0, and then it is -v |
| Display.BackgroundOf | src/components/editor/Image.tsx:149-151 | background size is the projected full image size; an offset is valid iff its number is >= 0, and then box position + offset is the uncropped image corner |
| Display.FullWindowFillsBox | src/components/editor/Image.tsx:149-151 | a full crop window at origin paints the image at exactly the box size with zero offsets |
| Display.PaintedAtCorner | src/components/editor/Image.tsx:149-151 | with valid offsets the image is painted at the layer's image corner, at projected size |
| Display.CropKeepsPaintedImage | src/components/editor/Image.tsx:149-151 | a crop drag keeping offsets valid leaves the painted image's position and size unchanged |
| Display.PanKeepsPaintedImage | src/components/editor/Image.tsx:149-151 | the same for an unclamped pan |
| Display.NegativeOriginMovesPaintedImage | src/components/editor/Image.tsx:150 | once the crop origin is negative the offset declaration is invalid and the painted image jumps |
| Fit.FitSize | src/context/EditorContext.tsx:53-57 | display size (same rule at src/components/pack/StickerGrid.tsx:45-49) is positive, at most 500 and at most the intrinsic size in each dimension, keeps the intrinsic aspect ratio, and one side reaches its cap |
| Fit.FitLandscape | src/context/EditorContext.tsx:56-57 | landscape case: derived height within bounds, ratio kept |
| Fit.FitPortrait | src/context/EditorContext.tsx:56-57 | portrait case: derived width within bounds, ratio kept |
| Fit.FittedLayer | src/context/EditorContext.tsx:63-77 | new layer: rotation 0, intrinsic size recorded, crop window the whole image, fitted display size, positive and inside; full image projects exactly onto the box |
| Fit.CenteredLayer | src/components/pack/StickerGrid.tsx:60-61 | the fitted layer with `top + height/2 = 250` and `left + width/2 = 250`, lying inside the canvas |
| Lists.Filter | src/context/EditorContext.tsx:99 | `filter`: an element is kept iff it was there and passes |
| Lists.FilterAppend | src/context/EditorContext.tsx:99 | filtering distributes over concatenation, so the survivors keep their order |
| Lists.FilterKeepsAll | src/context/EditorContext.tsx:99 | a filter every element passes changes nothing |
| Lists.Without | src/context/AppContext.tsx:74 | every occurrence of the id removed, the others kept; shorter iff the id was present |
| Lists.WithoutAppend | src/context/AppContext.tsx:74 | removal keeps the remaining ids in order |
| Lists.AppendNew | src/context/AppContext.tsx:57-60 | the `Set` insertion order: the existing sequence is a prefix, membership is the union, duplicate-free input stays duplicate-free |
| Lists.Dedupe | src/context/AppContext.tsx:57-60 | `Array.from(new Set(s))` is duplicate-free with the same members |
| Lists.AppendNewConcat | src/context/AppContext.tsx:57 | inserting a + b is inserting a, then b |
| Lists.AppendNewOfNoDup | src/context/AppContext.tsx:57-60 | a duplicate-free sequence is its own insertion order |
| Lists.DedupeExtends | src/context/AppContext.tsx:57-60 | deduplicating old + new keeps old unchanged as a prefix and appends only new ids |
| Lists.AppendOne | src/context/AppContext.tsx:121-125 | appending one id unless present is the set insertion of that id |
| Editor.FindIndex | src/context/EditorContext.tsx:87 | the first index with the id, or -1 iff none has it |
| Editor.Lookup | src/context/EditorContext.tsx:116 | `layers[findIndex]`: a layer exactly when one has the id, and then the first such layer |
| Editor.Replace | src/context/EditorContext.tsx:84-94 | length kept; the first layer with the id replaced, every other entry kept; absent id changes nothing |
| Editor.SetContent | src/context/EditorContext.tsx:118-122 | the first layer with the id gets the new content, geometry of all layers and all other entries unchanged; fails iff the id is absent |
| Editor.WithoutLayer | src/context/EditorContext.tsx:99 | a layer survives iff it was present and has another id; the id is no longer found |
| Editor.WithoutLayerAppend | src/context/EditorContext.tsx:99 | deletion keeps the surviving layers in order |
| Editor.ReplaceThenLookup | src/context/EditorContext.tsx:84-94 | after an update the id finds the new layer; other ids find what they found before |
| Editor.FindIndexSameIds | src/context/EditorContext.tsx:87 | lists with the same id positions find an id at the same index |
| Editor.ContentThenLookup | src/context/EditorContext.tsx:118-122 | after a content write the id finds its old layer with the new content |
| Editor.EditorSession.constructor | src/context/EditorContext.tsx:249-256 | the default session state |
| Editor.EditorSession.AddLayer | src/context/EditorContext.tsx:51-82 | appends exactly the fitted layer at the end and selects its id, nothing else changes |
| Editor.EditorSession.UpdateLayer | src/context/EditorContext.tsx:84-94 | the list becomes `Replace(old, layer)`, nothing else changes |
| Editor.EditorSession.DeleteLayer | src/context/EditorContext.tsx:96-103 | removes every layer with the id; clears the selection only if it was that id |
| Editor.EditorSession.ToggleCrop | src/context/EditorContext.tsx:105-107 | flips `isCrop`, nothing else changes |
| Editor.EditorSession.SetSelectedLayerId | src/context/EditorContext.tsx:154-156 | sets the selection, nothing else changes |
| Editor.EditorSession.KeyDown | src/context/EditorContext.tsx:165-174 | Backspace/Delete remove the selected id's layers and clear the selection; other keys change nothing |
| Editor.EditorSession.CleanLayerBgStart | src/context/EditorContext.tsx:109-116 | appends the id to the in-flight list and hands over the layer found under it, if any |
| Editor.EditorSession.CleanLayerBgComplete | src/context/EditorContext.tsx:117-130 | sets that layer's content and removes every occurrence of the id from the in-flight list; if the layer was deleted meanwhile the source's update throws; the model reports `ok == false` with nothing changed |
| Editor.EditorSession.OutlineLayerComplete | src/context/EditorContext.tsx:139-149 | sets that layer's content; the in-flight list is untouched; a deleted layer gives `ok == false` with nothing changed |
| Editor.ToggleCropTwice | src/context/EditorContext.tsx:105-107 | toggling twice restores every field |
| Editor.CleanLayerBgRoundTrip | src/context/EditorContext.tsx:109-133 | start then completion: the id is no longer in flight and its layer carries the new content |
| Interaction.TagFacts | src/components/editor/Image.tsx:79-113 | each string test of the move handler holds exactly for its own modes, and the corner read back from a tag is the handle's |
| Interaction.MovePatch | src/components/editor/Image.tsx:79-122 | the if-chain writes exactly the fields of the slot's mode (none for an empty slot) |
| Interaction.DispatchFollowsMode | src/components/editor/Image.tsx:79-122 | every mode reaches its own transform; "crop-translate" always pans and never crop-resizes; an empty slot leaves the working copy unchanged |
| Interaction.ModesFollowCropSwitch | src/components/editor/Image.tsx:183-253 | in crop mode every reachable mode edits the crop window, outside it none does; each handle's mode names its corner |
| Interaction.LayerView.constructor | src/components/editor/Image.tsx:39-48 | the working copy is the session's layer object given at mount (not detached), slot empty; the copy carries the view's layer id (`Valid`), which every handler keeps |
| Interaction.LayerView.Working | src/components/editor/Image.tsx:39 | the working copy is the session's current layer while shared, its own value once a move has detached it |
| Interaction.LayerView.Commit | src/context/EditorContext.tsx:84-94 | `updateLayer(state)` writes the working copy into the list and makes the two one object again |
| Interaction.LayerView.PointerDown | src/components/editor/Image.tsx:58-67 | on a rendered target of the selected, not-loading layer the slot holds exactly that target's mode (body: crop-translate in crop mode, else translate); otherwise nothing changes |
| Interaction.LayerView.PointerMove | src/components/editor/Image.tsx:69-125 | pressure 0 with a mode set commits the unmoved working copy and clears the slot; otherwise, with a mode set, the mode's patch is spread over the copy into a new (detached) object; with no mode nothing changes; no effect unless selected and not loading |
| Interaction.LayerView.PointerUp | src/components/editor/Image.tsx:127-136 | commits the working copy (so it is shared with the session again) and clears the slot, whether or not a mode was set |
| Interaction.LayerView.Click | src/components/editor/Image.tsx:158 | selects the layer unless its pointer events are disabled; layers, crop switch, in-flight list, sticker id and emoji unchanged |
| Interaction.PanGesture | src/components/editor/Image.tsx:183-185 | in crop mode, grabbing the body and moving yields exactly the crop-translate result |
| Interaction.ReleaseWritesWorkingCopy | src/components/editor/Image.tsx:127-136 | during a drag the copy is its own object, and the release overwrites a content change the session made meanwhile |
| Interaction.ReleaseKeepsSessionWrite | src/context/EditorContext.tsx:139-148 | outside a drag the copy is the session's object: a content change reaches it and survives the next release |
| Store.Store.GetSticker | src/db.ts:67-87 | the stored sticker under the id, `None` when missing; the read is traced |
| Store.Store.SaveSticker | src/db.ts:44-65 | the sticker is stored under its id; records stay keyed by id; the write is traced |
| Store.Store.SavePack | src/db.ts:44-65 | the pack is stored under its id; the write is traced |
| App.WithField | src/context/AppContext.tsx:41-51 | the named pack field takes the value, every other field stays |
| App.WithFieldIdempotent | src/context/AppContext.tsx:41-51 | setting the same field twice is setting it once; the last title wins |
| App.AddedIds | src/context/AppContext.tsx:55-61 | duplicate-free, members are old or new ids, and with a duplicate-free old list it is old followed by the new ids in first-occurrence order |
| App.RouteIds | src/context/AppContext.tsx:119-126 | the sticker id is appended unless present; duplicate-freedom kept |
| App.AppState.constructor | src/context/AppContext.tsx:174-184 | the default state: flags down, empty pack |
| App.AppState.DatabaseOpened | src/context/AppContext.tsx:92-96 | the outcome of opening the store becomes `isDBReady`; nothing else changes |
| App.AppState.SetIsBatchProcessing | src/context/AppContext.tsx:34-39 | only the flag changes |
| App.AppState.SetPackField | src/context/AppContext.tsx:41-53 | only the named field changes; the pack is written |
| App.AppState.AddStickers | src/context/AppContext.tsx:55-68 | the ids become `AddedIds(old, added)`; the pack is written once |
| App.AppState.RemoveSticker | src/context/AppContext.tsx:70-84 | every occurrence of the id leaves the pack, others keep their order; the pack is written |
| App.AppState.SyncRoute | src/context/AppContext.tsx:98-133 | nothing before the store is ready; another pack id loads that pack or renames the current one; the open pack's id plus a sticker id appends it unless present (and writes the pack only then) |
| App.AppState.ResetPack | src/context/AppContext.tsx:135-142 | with no pack in the route the pack becomes the empty default |
| StickerGrid.NewSticker | src/components/pack/StickerGrid.tsx:50-70 | exactly one layer: unrotated, whole image as crop window, fitted size, centred on the canvas |
| StickerGrid.SaveAllStores | src/components/pack/StickerGrid.tsx:71-72 | after the writes every new sticker is stored (under its own id when ids are distinct) and every other record is unchanged |
| StickerGrid.DropZone.constructor | src/components/pack/StickerGrid.tsx:18-19 | flag down |
| StickerGrid.DropZone.HandleDragging | src/components/pack/StickerGrid.tsx:29-79 | enter/over raise the flag only when down; leave lowers it only when up; drop always leaves it down; the ref and the rendered state stay equal |
| StickerGrid.ImportImages | src/components/pack/StickerGrid.tsx:41-75 | one sticker per image in order; the ids are pushed in that order; each sticker is written before the next; the ids are added to the pack once, after the loop |
| Batch.CleanLayers | src/components/pack/PackFuncPanel.tsx:24-28 | succeeds iff every removal call succeeds; same number of layers, geometry of each unchanged, each layer's content replaced by the service's result for it |
| Batch.CleanStickerLayers | src/components/pack/PackFuncPanel.tsx:24-28 | the inner loop yields the sticker with exactly `CleanLayers`' layers, or gives up on a rejection |
| Batch.RunStaysStopped | src/components/pack/PackFuncPanel.tsx:22-32 | after a rejection the rest of the ids change nothing |
| Batch.RunKeepsShape | src/components/pack/PackFuncPanel.tsx:24-30 | the pass only replaces contents: same keys, keyed by id, each sticker keeps id, emoji, layer count and geometry |
| Batch.RunCleansEach | src/components/pack/PackFuncPanel.tsx:22-31 | after a pass that ran through over distinct ids, each visited sticker is its stored version with every layer's content replaced by the service's result |
| Batch.RunLeavesOthers | src/components/pack/PackFuncPanel.tsx:22-31 | stickers not in the pack's ids are left exactly as they were |
| Batch.RunCounts | src/components/pack/PackFuncPanel.tsx:20-31 | the counter is the number of finished stickers; a full pass reads then writes every id in order; a stopped pass is the completed pass over the first n ids plus one read |
| Batch.CleanAllBackground | src/components/pack/PackFuncPanel.tsx:17-33 | no-op while a pass runs; otherwise raises the flag, the store ends as `Run` over the pack's ids says, and the flag is lowered only if the pass completed |

## Left out

Numbers are exact reals. IEEE-754 rounding, Infinity and NaN are not modelled, so the members
that divide require what makes their divisors nonzero. In the source these cases produce
NaN or Infinity geometry:

- Transform.ResizeLayer: requires nonzero width and height (the aspect ratio).
- Transform.CropLayer: requires `CropDefined` (nonzero crop window and projected size).
- Transform.CropTranslate: requires `CropDefined`, for the same reason.
- Display.BackgroundOf: requires a nonzero crop window.
- Fit.FitSize: requires a positive intrinsic image size.
- Fit.FittedLayer: requires a positive intrinsic image size.
- Fit.CenteredLayer: requires a positive intrinsic image size.
- StickerGrid.NewSticker: requires a positive intrinsic image size.
- StickerGrid.ImportImages: requires a positive intrinsic size for every image.
- Editor.EditorSession.AddLayer: requires a positive intrinsic image size.
- Interaction.LayerView.PointerMove: requires the active mode's transform to be defined on
  the working copy (`MoveDefined`), only on events that run it (selected, not loading,
  nonzero pressure, a mode set).

Trigonometry and rendering:

- `Math.cos`/`Math.sin` of the rotation and `Math.atan2` in degrees are function parameters
  (`Trig`). Transform.RotateIsAbsolute assumes only that atan2 gives -90 degrees straight up.
- The rotate branch's test that the view's element exists is always true while the view is
  mounted, so it is not modelled.
- Not modelled:
  - pointer capture, `stopPropagation` and console logging;
  - the grey-out filter;
  - the translucent whole-image preview shown in crop mode (src/components/editor/Image.tsx:160-176);
  - the rendered `dragging` state beyond its equality with the ref.

Object identity and asynchrony:

- Object identity is modelled only for a view's working copy and the session's layer
  (`Interaction.LayerView.detached`). Other objects are values.
- Editor.EditorSession.CleanLayerBgComplete: when the layer was deleted while its removal
  was in flight, the source's write through index -1 throws inside the state updater. React
  re-raises that error while rendering and the editor unmounts. The model reports
  `ok == false`, leaves the session as it was, and does not model the render error.
- Editor.EditorSession.OutlineLayerComplete: the same for a layer deleted while its outline
  was being computed.
- The image services, the store and image decoding complete at the points where their
  results are passed in.
- Handlers that capture state at render time (the layer list in background removal and
  outline, the pack in the batch) read the current state in the model.
- Interleavings with other user actions during a batch pass or an import are not modelled.
- App.AppState.SyncRoute: the pack load is asynchronous in the source; the model reads the
  store's pack table at once.
- Batch.CleanStickerLayers: the removal service is a function, so the order of its calls
  within one sticker cannot be observed. The loop still runs in index order.
- The removal service's fallback to the old content on a file-reader error is part of the
  service's result.

Operations outside the model:

- App.AppState.RemoveSticker: the pack is updated and written, but the deletion of the
  sticker record that follows is not modelled.
- Store.Store is a stand-in for src/db.ts, which is not part of this model beyond keyed
  reads and writes. Opening the database, versioning, transactions and failures are left out.
- Opening the store (`initDB`) is left out; only its boolean outcome is modelled
  (App.AppState.DatabaseOpened).
- Also not part of this model:
  - the editor's own persistence and route effects (src/context/EditorContext.tsx:181-213);
  - `setEmoji`;
  - pack download and `zipPack`;
  - the export compositor `getImageFromLayers`;
  - the canvas work of `addStrokeEffect` and of background removal, whose results are
    parameters;
  - `getImgDimensions`, `getLayersFromImgFiles`, `uuid` and `randomEmoji`, whose results
    are parameters.
