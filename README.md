# three-js-rendering: panorama registry and virtual-scroll windowing in Dafny

This project models the two cores of an Angular application that shows a
scrolling list of 360° panoramas.

**`PanoramaService`** keeps about fifteen id-keyed registries: the scenes,
cameras, renderers, controls, containers, canvases, overlays, loading
overlays, textures, observers, animation frames and per-id flags. It also
keeps the active id, the registration order, the set of captured ids and the
loading-state cells.

- **Operations.** Every operation of the service is a function from the old
  state to the new one, in module `PanoramaOps`. The state is a value
  (`PanoramaState.State`). Three.js objects, DOM elements, observers, timers
  and animation-frame requests are opaque `Token`s.
- **Browser callbacks.** Each callback is an event function of its own:
  - `Tick`: an animation frame fires;
  - `TextureLoaded` / `TextureFailed`: a texture request settles;
  - `NearViewport`: the high-quality observer reports an entry;
  - `CenterEntry`: the centre observer reports an entry;
  - `TimerFired`: one of the two `setTimeout` callbacks runs.
- **The object.** Class `PanoramaServiceModel.PanoramaService` holds the
  same data as fields that its methods update in place. Every method ensures
  that its new `Model()` is the corresponding function applied to the old
  one. The capture loop and the initialisation loop are `while` loops whose
  invariants tie the object to those functions.
- **Proofs.** `PanoramaInvariant` proves that every operation keeps `Inv`:
  - every handle issued is fresh;
  - each id's latest animation frame is still requested, by a loop for that
    id.

  `PanoramaProperties` proves statements about sequences of operations:
  destroy and capture are idempotent, a tiny texture that arrives late is not
  ignored, render loops are not exclusive, and so on.

**The virtual-scroll service, directive and component** decide which item
indices are materialised for a scroll offset. They also place one
absolutely positioned element per index, and remember the translation of
the item block.
- `ScrollWindow` holds the arithmetic as functions and lemmas. Pixels are
  naturals and item heights positive.
- `VirtualScrollService`, `VirtualScrollDirective` and
  `VirtualScrollComponent` are classes whose fields their methods update.

Files:
- `common.dfy`: `Option`, `Token`;
- `panorama_state.dfy`, `panorama_ops.dfy`, `capture_window.dfy`,
  `image_clamp.dfy`, `panorama_invariant.dfy`, `panorama_properties.dfy`,
  `panorama_service.dfy`;
- `scroll_window.dfy`, `virtual_scroll_service.dfy`,
  `virtual_scroll_directive.dfy`, `virtual_scroll_component.dfy`.

Behaviours of the code a reader may not expect, each stated by a lemma or
a contract:
- A texture that settles after `destroyPanorama` is not ignored: it
  registers a texture and may connect a new observer again
  (`LateTinyLoadAfterDestroy`).
- Render loops are not exclusive. When a hover ends over a centered
  panorama, its loop keeps running and the active id is cleared, so a second
  loop can start beside it (`TwoPanoramasRender`). A double start also
  leaves an orphan frame (`DoubleStartOrphansLoop`).
- `destroyPanorama` keeps the order, the loading cells, the hover listeners
  and the requests in flight.
- The window of the virtual-scroll service can hold
  `ceil((s+h)/ih) - floor(s/ih) + 2·bufferSize + 1` indices. That is more
  than `ceil(h/ih) + 2·bufferSize`, because the end index is inclusive
  (`WindowExceedsViewportCount`).
- With no items the window is empty: the end index is -1, below the start
  index.

## Model

| member | source | states |
|---|---|---|
| PanoramaState.Initial | src/app/services/panorama.service.ts:15-33 | the service as constructed: the given platform flag, no active id, an empty order, and `Valid` holds |
| PanoramaState.IsPanoramaCentered | src/app/services/panorama.service.ts:846-869 | false off the browser and for an id without a container; otherwise exactly the viewport geometry's verdict, which is an input |
| PanoramaState.CenteredDependsOnContainer | src/app/services/panorama.service.ts:846-869 | the verdict depends on the state only through the platform flag and whether the id has a container |
| PanoramaOps.StopRendering | src/app/services/panorama.service.ts:958-964 | the id's animation-frame entry is gone, its latest requested frame is cancelled, and nothing else changes |
| PanoramaOps.SetVisibility | src/app/services/panorama.service.ts:115-129 | without a container nothing changes; with one, a renderer's canvas is shown and the overlay is shown exactly when the renderer is not; only this id's canvas and overlay display can change, and a shown canvas is never hidden |
| PanoramaOps.Animate | src/app/services/panorama.service.ts:917-929 | a loop is live afterwards exactly when it continues (hovered, or centered for a centre loop); otherwise its frame entry is deleted |
| PanoramaOps.Tick | src/app/services/panorama.service.ts:942-955 | an unknown frame does nothing; a hover loop goes on exactly while hovered, a centre loop exactly while hovered or centered |
| PanoramaOps.StartRendering | src/app/services/panorama.service.ts:932-956 | without renderer, scene, camera or controls nothing changes; otherwise the loop is live exactly when it continues |
| PanoramaOps.AddScene | src/app/services/panorama.service.ts:214-227 | the id is appended to the order and gets the next handle as a scene with no children, and a camera |
| PanoramaOps.ObserveContainer | src/app/services/panorama.service.ts:236-263 | the container is registered and observed for centring, and its overlay is registered and shown |
| PanoramaOps.AddRenderer | src/app/services/panorama.service.ts:265-293 | canvas, renderer and controls are registered, the canvas is attached and not hidden, and the tiny image of the scene is requested |
| PanoramaOps.AddContainer | src/app/services/panorama.service.ts:236-293 | afterwards container, canvas, scene, camera, renderer and controls are all registered, the overlay is shown, the canvas attached and not hidden, and the tiny request is in flight |
| PanoramaOps.CreatePanorama | src/app/services/panorama.service.ts:209-293 | off the browser nothing changes; the order grows and scene and camera exist even without a container; a missing container only returns, leaving containers and requests alone; with one, all components exist and the tiny load is pending |
| PanoramaOps.InitOne | src/app/services/panorama.service.ts:178-205 | without renderer, scene, camera, canvas and texture nothing changes; with them the canvas is hidden exactly when the image is not complete, and a non-active id has its animation stopped exactly as `stopRendering` would (the runtime is otherwise untouched); other ids' canvases, and everything but display and frames, stay |
| PanoramaOps.InitEach | src/app/services/panorama.service.ts:178-206 | for every ready id of the list the canvas is hidden exactly when its image is not complete; the frame entries afterwards are exactly the old ones minus the ready non-active ids of the list, and the requested frames exactly the old ones minus those ids' frames, so every other loop, the active one's included, is untouched; ids outside the list keep their canvas display; nothing but canvas display and frames changes |
| PanoramaOps.InitialIds | src/app/services/panorama.service.ts:176 | exactly the first `min(5, |order|)` ids of the order |
| PanoramaOps.InitializePanoramas | src/app/services/panorama.service.ts:170-207 | off the browser nothing changes; in it, among the first five ids every ready one has its canvas hidden exactly when its image is not complete; the frames and requested frames lose exactly the entries of the ready non-active ones among them and nothing else; other ids keep their canvas display; nothing but canvas display and frames changes |
| PanoramaOps.WireHigh | src/app/services/panorama.service.ts:295-302 | with the element in the document a high-quality observer for the scene is connected; a registered container gets hover listeners, desktop or touch as the platform says; `isVisible` is false; other ids' observers, flags and listeners are unchanged, and the whole state except the id's observer, its listeners, its `isVisible`, the observer map and the handle counter is unchanged |
| PanoramaOps.FinishCreate | src/app/services/panorama.service.ts:295-308 | as `WireHigh`, and the overlay is shown; when the order is not five long frames and requested frames stay and a renderer's canvas is shown; when it is, the first five ids are initialised, their canvas display as `InitializePanoramas` says, and the frames and requests lose exactly the ready non-active ones' entries; the rest of the runtime but observers and the counter, order, active id, captured set, cells and registries but observers are unchanged |
| PanoramaOps.Retextured | src/app/services/panorama.service.ts:605-620 | without a texture one textured white sphere is appended; with one the first mesh gets the new map and the rest stay |
| PanoramaOps.TextureSettled | src/app/services/panorama.service.ts:601-636 | the request leaves the set, the new texture becomes current, the scene's children are `Retextured`, and an existing canvas is shown |
| PanoramaOps.TextureLoaded | src/app/services/panorama.service.ts:601-636 | an unknown request does nothing; otherwise the request leaves the set, the new texture becomes current and the scene's children are `Retextured`; an existing canvas ends shown unless a tiny load made the order five long (then initialisation decides); a tiny success with the element present connects the high-quality observer |
| PanoramaOps.TextureFailed | src/app/services/panorama.service.ts:641-651 | registries unchanged; with a current texture the scene is unchanged, without one a red fallback sphere is appended |
| PanoramaOps.NearViewport | src/app/services/panorama.service.ts:661-670 | a non-intersecting entry or an unknown observer does nothing; otherwise the high-quality load is requested, the observer disconnects and its registry entry is deleted |
| PanoramaOps.SetActive | src/app/services/panorama.service.ts:872-930 | off the browser or with any component missing nothing changes; otherwise the id is active, hovered, attached, its canvas shown and its overlay hidden, and rendering; a different truthy active id loses its hover flag and its frame; every other id keeps its hover flag and frame entry; registries, wiring, order and captured set are unchanged |
| PanoramaOps.Activate | src/app/services/panorama.service.ts:313-362 | the id becomes active and hovered before the check; with components missing nothing else changes; otherwise it is attached, its canvas shown and its overlay hidden, it renders and a capture timer is set; every other id keeps its hover flag and frame entry |
| PanoramaOps.NgOnInit | src/app/services/panorama.service.ts:40-53 | in the browser a first-activation timer is set, otherwise nothing changes |
| PanoramaOps.HoverYield | src/app/services/panorama.service.ts:377-402 | a different truthy active id with a container has its animation stopped exactly as `stopRendering` would, its overlay shown and its canvas not hidden; otherwise nothing changes; the hovering id's display, hover flags, registries and wiring are unchanged |
| PanoramaOps.HoverStart | src/app/services/panorama.service.ts:374-427 | unwired ids are unaffected; otherwise a yielding active id loses its frame and shows its overlay, the id becomes active and hovered, its canvas is shown and attached and its overlay hidden, and it is live when renderer, scene, camera and controls exist; every other id keeps its hover flag and frame entry; registries, wiring, order and captured set are unchanged |
| PanoramaOps.HoverStop | src/app/services/panorama.service.ts:429-451 | the hover flag drops and the active id clears only if it was this id; when centered the runtime and attachment are unchanged, otherwise the frame goes, the overlay is shown and the canvas is detached; every other id keeps its hover flag and frame entry; registries, wiring, order and captured set are unchanged |
| PanoramaOps.CenterEntry | src/app/services/panorama.service.ts:137-160 | nothing happens unless the entry is centered, the id is observed, not active, has a container and has the drag wiring; then it is exactly the hover start |
| PanoramaOps.SetLoadingState | src/app/services/panorama.service.ts:64-69 | the id's cell holds the value and no other cell or field changes |
| PanoramaOps.GetLoadingState | src/app/services/panorama.service.ts:56-61 | an existing cell is returned unchanged; a missing one is created false; either way the cell holds the returned value |
| PanoramaOps.TakeScreenshot | src/app/services/panorama.service.ts:555-592 | an image is produced exactly when all five components exist in the browser; then the canvas is attached and shown, otherwise nothing changes |
| PanoramaOps.CaptureTargets | src/app/services/panorama.service.ts:765-782 | none exactly when the active id is falsy or not in the order; otherwise exactly the neighbour window at the active id's first position: at most eight ids, all registered, and never the active id when no id is registered twice |
| PanoramaOps.CaptureOne | src/app/services/panorama.service.ts:784-842 | a captured or incomplete id is skipped; it throws exactly when neither loading overlay nor container exists; otherwise the id is captured with its cell false and overlays shown; loading overlays only grow; only its own cell and the captured set can change |
| PanoramaOps.CaptureEach | src/app/services/panorama.service.ts:784-842 | the loop over the targets, stopping at the first throw; with no targets it changes nothing (its properties are the three lemmas below) |
| PanoramaOps.CaptureEachFrame | src/app/services/panorama.service.ts:784-842 | the loop only adds to the captured set, stays within `CaptureFrame`, and keeps the cells of ids outside the list or captured before |
| PanoramaOps.CaptureEachAdds | src/app/services/panorama.service.ts:833-840 | every newly captured id is a listed id that had all components, and its loading cell ends false |
| PanoramaOps.CaptureEachCompletes | src/app/services/panorama.service.ts:784-842 | when the loop does not throw, every listed id with all components ends captured |
| PanoramaOps.CaptureEachNoThrow | src/app/services/panorama.service.ts:797-805 | the loop does not throw when every uncaptured ready target has a loading overlay or a container |
| PanoramaOps.Capture | src/app/services/panorama.service.ts:765-843 | no targets: nothing changes; the captured set only grows, every new member is a target with all components and a false cell; when every uncaptured ready target has a loading overlay or a container, every ready target ends captured; the rest stays within `CaptureFrame` |
| PanoramaOps.TimerFired | src/app/services/panorama.service.ts:43-51 | an unknown timer does nothing; the first-activation timer is retired and activates the first registered id, or nothing more without one; the capture timer is retired and captures unless its id is already captured |
| PanoramaOps.Detach | src/app/services/panorama.service.ts:689-761 | the active id clears if it was this id, the id leaves the captured set and the flag maps, its container is unobserved, its canvas leaves the document and its overlay is no longer shown; registries, runtime, hover listeners, order and cells are unchanged |
| PanoramaOps.Dispose | src/app/services/panorama.service.ts:704-760 | the id leaves every registry, its high-quality observer is disconnected, its texture and renderer are disposed; the rest of the runtime, display, wiring, order and cells are unchanged |
| PanoramaOps.Destroy | src/app/services/panorama.service.ts:683-763 | off the browser nothing changes; otherwise exactly its latest frame request is cancelled, its high-quality observer disconnected and its container unobserved; the id leaves every registry, the captured set, the flags and the frames, is no longer active, its canvas and overlay leave the document, and its texture and renderer are disposed; order, cells, hover listeners, timers, requests in flight and scene graph stay |
| CaptureWindow.IndexOf | src/app/services/panorama.service.ts:771 | -1 exactly when absent; otherwise a position holding the element with no earlier occurrence |
| CaptureWindow.NeighbourWindow | src/app/services/panorama.service.ts:778-782 | the up to three ids before and up to five after position `i`, in order, at most eight |
| CaptureWindow.WindowMembers | src/app/services/panorama.service.ts:778-782 | an id is in the window exactly when it sits at a window position other than `i` |
| CaptureWindow.FullWindow | src/app/services/panorama.service.ts:778-782 | with three before and five after, the window holds eight ids |
| CaptureWindow.ActiveIdExcluded | src/app/services/panorama.service.ts:771-782 | the active id is a target exactly when it recurs in the five positions after it; with no repeated id, never |
| ImageClamp.RoundDiv | src/app/services/panorama.service.ts:513 | `Math.round(p / q)`: the nearest integer, halves upward |
| ImageClamp.Fit | src/app/services/panorama.service.ts:512-515 | one step of the clamp: a fitting side is left alone; an oversized side becomes the limit and the other side `round(other * limit / side)`, the same ratio; neither side grows |
| ImageClamp.Clamp | src/app/services/panorama.service.ts:509-520 | the result fits both limits (800 by 600 in the capture call, :815-820) and never exceeds the input; a fitting input is kept; otherwise the width is fitted first and then the height, each time scaling the other side by the same ratio and rounding it, case by case |
| PanoramaInvariant.InitialInv | src/app/services/panorama.service.ts:15-33 | the initial service satisfies the invariant |
| PanoramaInvariant.StopRenderingKeepsInv | src/app/services/panorama.service.ts:958-964 | `stopRendering` keeps the invariant |
| PanoramaInvariant.SetVisibilityKeepsInv | src/app/services/panorama.service.ts:115-129 | `setVisibility` keeps the invariant |
| PanoramaInvariant.AnimateKeepsInv | src/app/services/panorama.service.ts:942-955 | one loop run yields the invariant even when the loop's own entry was consumed |
| PanoramaInvariant.TickKeepsInv | src/app/services/panorama.service.ts:942-955 | a firing animation frame keeps the invariant |
| PanoramaInvariant.StartRenderingKeepsInv | src/app/services/panorama.service.ts:932-956 | `startRendering` keeps the invariant |
| PanoramaInvariant.AddSceneKeepsInv | src/app/services/panorama.service.ts:214-227 | the scene step keeps the invariant and issues a scene handle below the counter |
| PanoramaInvariant.AddContainerKeepsInv | src/app/services/panorama.service.ts:236-293 | the container and renderer steps keep the invariant |
| PanoramaInvariant.CreatePanoramaKeepsInv | src/app/services/panorama.service.ts:209-293 | `createPanorama` keeps the invariant |
| PanoramaInvariant.InitEachKeepsInv | src/app/services/panorama.service.ts:178-206 | the initialisation loop keeps the invariant |
| PanoramaInvariant.InitializePanoramasKeepsInv | src/app/services/panorama.service.ts:170-207 | `initializePanoramas` keeps the invariant |
| PanoramaInvariant.WireHighKeepsInv | src/app/services/panorama.service.ts:295-302 | connecting the observer and listeners keeps the invariant |
| PanoramaInvariant.FinishCreateKeepsInv | src/app/services/panorama.service.ts:295-308 | the rest of `createPanorama` keeps the invariant |
| PanoramaInvariant.TextureSettledKeepsInv | src/app/services/panorama.service.ts:601-636 | a settling request keeps the invariant |
| PanoramaInvariant.TextureLoadedKeepsInv | src/app/services/panorama.service.ts:601-636 | a successful load keeps the invariant |
| PanoramaInvariant.TextureFailedKeepsInv | src/app/services/panorama.service.ts:641-651 | a failed load keeps the invariant |
| PanoramaInvariant.NearViewportKeepsInv | src/app/services/panorama.service.ts:661-670 | the high-quality observer's callback keeps the invariant |
| PanoramaInvariant.SetActiveKeepsInv | src/app/services/panorama.service.ts:872-930 | `setActivePanorama` keeps the invariant |
| PanoramaInvariant.ActivateKeepsInv | src/app/services/panorama.service.ts:313-362 | `activatePanorama` keeps the invariant |
| PanoramaInvariant.NgOnInitKeepsInv | src/app/services/panorama.service.ts:40-53 | `ngOnInit` keeps the invariant |
| PanoramaInvariant.HoverStartKeepsInv | src/app/services/panorama.service.ts:374-427 | the hover start handler keeps the invariant |
| PanoramaInvariant.HoverStopKeepsInv | src/app/services/panorama.service.ts:429-451 | the hover stop handler keeps the invariant |
| PanoramaInvariant.CenterEntryKeepsInv | src/app/services/panorama.service.ts:137-160 | the centre observer's callback keeps the invariant |
| PanoramaInvariant.LoadingStateKeepsInv | src/app/services/panorama.service.ts:56-69 | both loading-state operations keep the invariant |
| PanoramaInvariant.TakeScreenshotKeepsInv | src/app/services/panorama.service.ts:555-592 | `takeScreenshot` keeps the invariant |
| PanoramaInvariant.CaptureKeepsInv | src/app/services/panorama.service.ts:765-843 | the capture loop keeps the invariant |
| PanoramaInvariant.TimerFiredKeepsInv | src/app/services/panorama.service.ts:43-51 | either timer callback keeps the invariant |
| PanoramaInvariant.DestroyKeepsInv | src/app/services/panorama.service.ts:683-763 | `destroyPanorama` keeps the invariant |
| PanoramaProperties.DestroyIdempotent | src/app/services/panorama.service.ts:683-763 | destroying twice equals destroying once, and a second call disposes nothing |
| PanoramaProperties.CaptureEachSettled | src/app/services/panorama.service.ts:784-842 | rerunning the loop from where it ended changes nothing and ends the same way |
| PanoramaProperties.CaptureIdempotent | src/app/services/panorama.service.ts:765-843 | a second capture adds nothing |
| PanoramaProperties.GetAfterSet | src/app/services/panorama.service.ts:56-69 | reading after setting returns the value set and changes nothing |
| PanoramaProperties.GetLoadingStateIdempotent | src/app/services/panorama.service.ts:56-61 | a second read finds the cell the first created |
| PanoramaProperties.NearViewportOnce | src/app/services/panorama.service.ts:661-670 | the high-quality observer loads once; a second entry does nothing |
| PanoramaProperties.SettledSceneGrows | src/app/services/panorama.service.ts:601-651 | a settled request adds one mesh when there was no texture (so the scene is non-empty) and none otherwise, on success and on failure |
| PanoramaProperties.LateTinyLoadAfterDestroy | src/app/services/panorama.service.ts:601-636 | a tiny image arriving after destroy registers a texture again and connects a new high-quality observer |
| PanoramaProperties.LoadTouchesOwnScene | src/app/services/panorama.service.ts:605-620 | a settling request changes only the scene its closure captured |
| PanoramaProperties.TextureLoadedKeepsOtherLoads | src/app/services/panorama.service.ts:601-636 | a settling request leaves every other request in flight |
| PanoramaProperties.RetextureEmptyScene | src/app/services/panorama.service.ts:606-612 | with a current texture and an empty scene, a success paints nothing |
| PanoramaProperties.RecreatedSceneFresh | src/app/services/panorama.service.ts:209-227 | a re-created panorama gets a scene no earlier request refers to, with no children, and old requests stay in flight |
| PanoramaProperties.StaleLoadLeavesNewSceneEmpty | src/app/services/panorama.service.ts:605-622 | an old request settling after re-creation paints the old scene and leaves the new one empty, while setting the id's texture |
| PanoramaProperties.RecreatedPanoramaNeverPainted | src/app/services/panorama.service.ts:606-612 | after that, the new panorama's own tiny image takes the "existing texture" branch and its scene stays empty |
| PanoramaProperties.CenteredHoverStopKeepsLoop | src/app/services/panorama.service.ts:429-451 | a hover ending over a centered panorama keeps its loop and clears the active id |
| PanoramaProperties.AnimateKeepsOtherLoop | src/app/services/panorama.service.ts:942-955 | a loop run for one id keeps another id's loop live |
| PanoramaProperties.HoverStartKeepsOtherLoop | src/app/services/panorama.service.ts:377-402 | with no truthy active id, a hover start stops no other loop |
| PanoramaProperties.TwoPanoramasRender | src/app/services/panorama.service.ts:429-451 | after a centered hover ends, a hover elsewhere leaves two loops running |
| PanoramaProperties.DoubleStartOrphansLoop | src/app/services/panorama.service.ts:932-964 | two starts and one stop leave a requested frame that no entry refers to |
| PanoramaProperties.ActivateLeavesOthers | src/app/services/panorama.service.ts:313-362 | `activatePanorama` changes no other id's loop or hover flag |
| PanoramaProperties.StopRenderingLeavesOthers | src/app/services/panorama.service.ts:958-964 | under `Inv`, stopping one panorama keeps every other panorama's loop live with the same frame |
| PanoramaProperties.InitEachLeavesOthers | src/app/services/panorama.service.ts:178-206 | under `Inv`, the initialisation loop keeps the loop of the active id and of every listed id without all components or outside the list |
| PanoramaProperties.InitializePanoramasLeavesOthers | src/app/services/panorama.service.ts:196-204 | under `Inv`, `initializePanoramas` stops only ready non-active ids among the first five; the active id's loop and every other loop stay live |
| PanoramaProperties.FinishCreateLeavesOthers | src/app/services/panorama.service.ts:295-308 | under `Inv`, the rest of `createPanorama` keeps every loop its initialisation step does not stop, the active one's included |
| PanoramaProperties.SetActiveLeavesOthers | src/app/services/panorama.service.ts:893-903 | under `Inv`, `setActivePanorama` keeps the loop of every id other than the new and the previous active one |
| PanoramaProperties.HoverYieldLeavesOthers | src/app/services/panorama.service.ts:377-385 | under `Inv`, the yield step stops only the yielding active id's loop |
| PanoramaProperties.HoverStartLeavesOthers | src/app/services/panorama.service.ts:374-427 | under `Inv`, a hover start keeps the loop of every id other than itself and the yielding active id |
| PanoramaProperties.HoverStopLeavesOthers | src/app/services/panorama.service.ts:429-451 | under `Inv`, a hover end keeps every other panorama's loop |
| PanoramaProperties.DestroyLeavesOthers | src/app/services/panorama.service.ts:697-702 | under `Inv`, `destroyPanorama` keeps every other panorama's loop and hover flag |
| PanoramaServiceModel.PanoramaService.constructor | src/app/services/panorama.service.ts:15-38 | the object's model is the initial state |
| PanoramaServiceModel.PanoramaService.StopRendering | src/app/services/panorama.service.ts:958-964 | the new state is `PanoramaOps.StopRendering` of the old |
| PanoramaServiceModel.PanoramaService.SetVisibility | src/app/services/panorama.service.ts:115-129 | the new state is `PanoramaOps.SetVisibility` of the old |
| PanoramaServiceModel.PanoramaService.Animate | src/app/services/panorama.service.ts:942-955 | the new state is `PanoramaOps.Animate` of the old |
| PanoramaServiceModel.PanoramaService.Tick | src/app/services/panorama.service.ts:942-955 | the new state is `PanoramaOps.Tick` of the old |
| PanoramaServiceModel.PanoramaService.StartRendering | src/app/services/panorama.service.ts:932-956 | the new state is `PanoramaOps.StartRendering` of the old |
| PanoramaServiceModel.PanoramaService.AddScene | src/app/services/panorama.service.ts:214-227 | the new state is `PanoramaOps.AddScene` of the old |
| PanoramaServiceModel.PanoramaService.ObserveContainer | src/app/services/panorama.service.ts:236-263 | the new state is `PanoramaOps.ObserveContainer` of the old |
| PanoramaServiceModel.PanoramaService.AddRenderer | src/app/services/panorama.service.ts:265-293 | the new state is `PanoramaOps.AddRenderer` of the old |
| PanoramaServiceModel.PanoramaService.CreatePanorama | src/app/services/panorama.service.ts:209-293 | the new state is `PanoramaOps.CreatePanorama` of the old |
| PanoramaServiceModel.PanoramaService.InitOne | src/app/services/panorama.service.ts:178-205 | the new state is `PanoramaOps.InitOne` of the old |
| PanoramaServiceModel.PanoramaService.InitializePanoramas | src/app/services/panorama.service.ts:170-207 | the loop ends in `PanoramaOps.InitializePanoramas` of the old state |
| PanoramaServiceModel.PanoramaService.WireHigh | src/app/services/panorama.service.ts:295-302 | the new state is `PanoramaOps.WireHigh` of the old |
| PanoramaServiceModel.PanoramaService.FinishCreate | src/app/services/panorama.service.ts:295-308 | the new state is `PanoramaOps.FinishCreate` of the old |
| PanoramaServiceModel.PanoramaService.TextureSettled | src/app/services/panorama.service.ts:601-636 | the new state is `PanoramaOps.TextureSettled` of the old |
| PanoramaServiceModel.PanoramaService.TextureLoaded | src/app/services/panorama.service.ts:601-636 | the new state is `PanoramaOps.TextureLoaded` of the old |
| PanoramaServiceModel.PanoramaService.TextureFailed | src/app/services/panorama.service.ts:641-651 | the new state is `PanoramaOps.TextureFailed` of the old |
| PanoramaServiceModel.PanoramaService.NearViewport | src/app/services/panorama.service.ts:661-670 | the new state is `PanoramaOps.NearViewport` of the old |
| PanoramaServiceModel.PanoramaService.SetActivePanorama | src/app/services/panorama.service.ts:872-930 | the new state is `PanoramaOps.SetActive` of the old |
| PanoramaServiceModel.PanoramaService.ActivatePanorama | src/app/services/panorama.service.ts:313-362 | the new state is `PanoramaOps.Activate` of the old |
| PanoramaServiceModel.PanoramaService.NgOnInit | src/app/services/panorama.service.ts:40-53 | the new state is `PanoramaOps.NgOnInit` of the old |
| PanoramaServiceModel.PanoramaService.HoverYield | src/app/services/panorama.service.ts:377-402 | the new state is `PanoramaOps.HoverYield` of the old |
| PanoramaServiceModel.PanoramaService.HoverStart | src/app/services/panorama.service.ts:374-427 | the new state is `PanoramaOps.HoverStart` of the old |
| PanoramaServiceModel.PanoramaService.HoverStop | src/app/services/panorama.service.ts:429-451 | the new state is `PanoramaOps.HoverStop` of the old |
| PanoramaServiceModel.PanoramaService.CenterEntry | src/app/services/panorama.service.ts:137-160 | the new state is `PanoramaOps.CenterEntry` of the old |
| PanoramaServiceModel.PanoramaService.SetLoadingState | src/app/services/panorama.service.ts:64-69 | the new state is `PanoramaOps.SetLoadingState` of the old |
| PanoramaServiceModel.PanoramaService.GetLoadingState | src/app/services/panorama.service.ts:56-61 | new state and value are `PanoramaOps.GetLoadingState` of the old |
| PanoramaServiceModel.PanoramaService.TakeScreenshot | src/app/services/panorama.service.ts:555-592 | new state and outcome are `PanoramaOps.TakeScreenshot` of the old |
| PanoramaServiceModel.PanoramaService.CaptureOne | src/app/services/panorama.service.ts:785-841 | new state and throw flag are `PanoramaOps.CaptureOne` of the old |
| PanoramaServiceModel.PanoramaService.Capture | src/app/services/panorama.service.ts:765-843 | the loop, left at the first throw, ends in `PanoramaOps.Capture` of the old state |
| PanoramaServiceModel.PanoramaService.TimerFired | src/app/services/panorama.service.ts:43-51 | the new state is `PanoramaOps.TimerFired` of the old |
| PanoramaServiceModel.PanoramaService.Detach | src/app/services/panorama.service.ts:689-761 | the new state is `PanoramaOps.Detach` of the old |
| PanoramaServiceModel.PanoramaService.Dispose | src/app/services/panorama.service.ts:704-760 | the new state is `PanoramaOps.Dispose` of the old |
| PanoramaServiceModel.PanoramaService.DestroyPanorama | src/app/services/panorama.service.ts:683-763 | the new state is `PanoramaOps.Destroy` of the old |
| ScrollWindow.CeilDiv | src/app/services/virtual-scroll.service.ts:229 | `Math.ceil(a / b)`: the least count of `b`s covering `a` |
| ScrollWindow.StartIndex | src/app/services/virtual-scroll.service.ts:226 | at most the first index in view, and either 0 or exactly `bufferSize` below it |
| ScrollWindow.EndIndex | src/app/services/virtual-scroll.service.ts:227-230 | at most `totalItems - 1` and at most the last index in view plus the buffer, and equal to one of them |
| ScrollWindow.Range | src/app/services/virtual-scroll.service.ts:233-236 | the ascending run from `lo` to `hi`, empty when `lo > hi` |
| ScrollWindow.RangeMembers | src/app/services/virtual-scroll.service.ts:233-236 | membership in the run is exactly lying between its ends |
| ScrollWindow.Merge | src/app/services/virtual-scroll.service.ts:56 | `{ ...defaultOptions, ...options }` (also at :89 and :127): each field the caller gives wins, every other field is the default's |
| ScrollWindow.MergeNothing | src/app/services/virtual-scroll.service.ts:56 | spreading no options over the defaults gives the defaults |
| ScrollWindow.MergeFull | src/app/services/virtual-scroll.service.ts:56 | options that give all three fields override the defaults entirely |
| ScrollWindow.ComputeWindow | src/app/services/virtual-scroll.service.ts:226-236 | the push loop builds exactly the contiguous run from start to end, every entry a real item index |
| ScrollWindow.WithWindow | src/app/services/virtual-scroll.service.ts:239-245 | start and end are `StartIndex` and `EndIndex`, the visible list is exactly the ascending run between them, `scrollTop` is the new offset, and `totalItems` and `isScrolling` are kept |
| ScrollWindow.WindowInBounds | src/app/services/virtual-scroll.service.ts:226-236 | every visible index lies in `[0, totalItems)` |
| ScrollWindow.WindowLength | src/app/services/virtual-scroll.service.ts:226-236 | the window holds at most `ceil((s+h)/ih) - floor(s/ih) + 2·bufferSize + 1` indices |
| ScrollWindow.WindowCoversViewport | src/app/services/virtual-scroll.service.ts:226-236 | every item overlapping the viewport is materialised |
| ScrollWindow.TopIncludesFirst | src/app/services/virtual-scroll.service.ts:226-236 | at the top of a non-empty list, index 0 is materialised |
| ScrollWindow.SixteenItemsExample | src/app/services/virtual-scroll.service.ts:226-236 | sixteen 420-pixel items, buffer 8, an 800-pixel viewport at the top: the window is 0..10 |
| ScrollWindow.WindowExceedsViewportCount | src/app/services/virtual-scroll.service.ts:226-236 | a 100-pixel viewport over 100-pixel items with no buffer materialises two items |
| ScrollWindow.AtMostOneCentered | src/app/services/virtual-scroll.service.ts:124-138 | with items stacked edge to edge, two items are never both centred |
| VirtualScrollServiceModel.VirtualScrollService.constructor | src/app/services/virtual-scroll.service.ts:23-42 | the initial scroll state, with no element, observer or timer |
| VirtualScrollServiceModel.VirtualScrollService.IsItemVisible | src/app/services/virtual-scroll.service.ts:115-117 | membership of the index in the current visible list; once a window is computed, exactly the indices between its start and end |
| VirtualScrollServiceModel.VirtualScrollService.UpdateVisibleItems | src/app/services/virtual-scroll.service.ts:217-246 | the state gets the window of the given options; `isItemVisible(i)` holds exactly for `start <= i <= end`, and only for real item indices |
| VirtualScrollServiceModel.VirtualScrollService.Initialize | src/app/services/virtual-scroll.service.ts:50-72 | the element is kept, a new resize observer replaces the old, the window uses the given options over the defaults, and the state's `totalItems` is the argument |
| VirtualScrollServiceModel.VirtualScrollService.SetupResizeObserver | src/app/services/virtual-scroll.service.ts:195-209 | a new observer replaces the previous one |
| VirtualScrollServiceModel.VirtualScrollService.Resized | src/app/services/virtual-scroll.service.ts:200-206 | a resize recomputes the window with the DEFAULT options and the recorded `totalItems` |
| VirtualScrollServiceModel.VirtualScrollService.HandleScroll | src/app/services/virtual-scroll.service.ts:162-189 | without an element nothing changes; otherwise scrolling is marked, the window uses the DEFAULT options, and the previous settle timer is replaced by a new one |
| VirtualScrollServiceModel.VirtualScrollService.ScrollToIndex | src/app/services/virtual-scroll.service.ts:86-109 | without an element nothing changes; otherwise the scroll targets `index * itemHeight`, only `isScrolling` changes in the state, and a settle timer is set |
| VirtualScrollServiceModel.VirtualScrollService.SettleFired | src/app/services/virtual-scroll.service.ts:103-107 | a cleared or fired timer does nothing; a pending one clears `isScrolling` and nothing else |
| VirtualScrollServiceModel.VirtualScrollService.Destroy | src/app/services/virtual-scroll.service.ts:143-157 | element and observer are forgotten and the last scroll-settle timer is cleared |
| VirtualScrollServiceModel.VirtualScrollService.IsItemCentered | src/app/services/virtual-scroll.service.ts:124-138 | true exactly when there is a scroll element and an item element whose centre is strictly within half the given (or default 100) item height of the container's |
| VirtualScrollDirectiveModel.LayoutTiles | src/app/directives/virtual-scroll.directive.ts:118-134 | for a contiguous window the elements tile the wrapper from `startIndex * itemHeight` to `(endIndex + 1) * itemHeight`, inside its height |
| VirtualScrollDirectiveModel.VirtualScrollDirective.constructor | src/app/directives/virtual-scroll.directive.ts:15-27 | the inputs as bound, with no items, events or subscription |
| VirtualScrollDirectiveModel.VirtualScrollDirective.SetupContainer | src/app/directives/virtual-scroll.directive.ts:55-81 | a wrapper of height `totalItems * itemHeight` becomes the host's first child |
| VirtualScrollDirectiveModel.VirtualScrollDirective.UpdateVisibleItems | src/app/directives/virtual-scroll.directive.ts:108-135 | without a wrapper nothing changes; otherwise the old children are gone and the wrapper holds one element per visible index, in order, with `data-index`, `top` and `height`, and one event per visible index is emitted, in the same order |
| VirtualScrollDirectiveModel.VirtualScrollDirective.OnScrollState | src/app/directives/virtual-scroll.directive.ts:98-101 | after unsubscription nothing changes; while subscribed the last visible list is kept and rendered as by `UpdateVisibleItems` |
| VirtualScrollDirectiveModel.VirtualScrollDirective.InitializeVirtualScroll | src/app/directives/virtual-scroll.directive.ts:86-102 | the service is initialised with the directive's own item height, buffer and the container height, so its state is the window of exactly those options with the given `totalItems`; the visible list is the contiguous run from start to end and `isItemVisible(i)` holds exactly for it; a new resize observer takes the next handle; with a wrapper the window is laid out and one event per index emitted, without one nothing is rendered |
| VirtualScrollDirectiveModel.VirtualScrollDirective.IsItemVisible | src/app/directives/virtual-scroll.directive.ts:141-143 | membership of the index in the directive's own visible list; while it mirrors a computed window of the service, exactly the indices between start and end |
| VirtualScrollDirectiveModel.VirtualScrollDirective.IsItemCentered | src/app/directives/virtual-scroll.directive.ts:149-155 | the service's test with the directive's item height |
| VirtualScrollDirectiveModel.VirtualScrollDirective.ScrollToItem | src/app/directives/virtual-scroll.directive.ts:161-167 | without an element nothing changes (timers and handles included); otherwise the scroll targets `index * itemHeight` with the directive's item height, only `isScrolling` changes in the state, and one new settle timer with the next handle is pending |
| VirtualScrollDirectiveModel.VirtualScrollDirective.NgOnDestroy | src/app/directives/virtual-scroll.directive.ts:43-50 | the subscription ends and the service is destroyed |
| VirtualScrollComponentModel.VirtualScrollComponent.constructor | src/app/components/virtual-scroll/virtual-scroll.component.ts:38-51 | the inputs as bound, with zero height and offset, no items and no subscription |
| VirtualScrollComponentModel.VirtualScrollComponent.NgOnInit | src/app/components/virtual-scroll/virtual-scroll.component.ts:53-57 | `totalHeight = totalItems * itemHeight`, in the browser only |
| VirtualScrollComponentModel.VirtualScrollComponent.OnScrollState | src/app/components/virtual-scroll/virtual-scroll.component.ts:79-83 | after unsubscription nothing changes; while subscribed `offset = startIndex * itemHeight`, the visible list mirrors the state, and it is emitted exactly once |
| VirtualScrollComponentModel.VirtualScrollComponent.NgAfterViewInit | src/app/components/virtual-scroll/virtual-scroll.component.ts:59-85 | off the browser nothing changes, the service's handles included; in it the service state is the window of the component's own options with the given `totalItems`, its visible list the contiguous run from start to end, a new resize observer takes the next handle, and the first state is mirrored and emitted |
| VirtualScrollComponentModel.VirtualScrollComponent.NgOnDestroy | src/app/components/virtual-scroll/virtual-scroll.component.ts:87-90 | the subscription ends and the service is destroyed |

## Left out

- Three.js and WebGL: scenes, cameras, renderers, controls and textures are opaque handles. `render()`, `controls.update()`, geometry and materials beyond colour and map are not modelled. `dispose()` is recorded in a multiset.
- Asynchrony: each callback is modelled as one atomic step. The inner body of `createPanorama` runs as one step up to the tiny texture request, and the rest runs when that request succeeds. The awaits inside the capture loop (`takeScreenshot`, `compressImage`) are treated as completing at once, so no other event interleaves within one iteration.
- The `ngAfterViewInit` of the directive defers initialisation with `setTimeout(0)`; `InitializeVirtualScroll` models the deferred call itself.
- `isPanoramaCentered`: the floating-point intersection ratio of DOM rectangles is an input (`Dom.centered`). The model keeps only the browser check and the container check.
- `isDesktop`: the breakpoint is an input (`Dom.desktop`). Texture image completeness is also an input (`Dom.complete`), as are the elements `document.getElementById` finds (`Dom.elements`).
- The small floating-point gap of `compressImage`: `Math.round` of a floating-point quotient is modelled as the exact rational rounded half up. JPEG encoding, quality factors and `toDataURL` are left out. A screenshot is reduced to whether it was produced.
- Console logging, overlay text and styling, the 1-second overlay fade timers, and the `@keyframes` injection are left out.
- Hover listeners accumulate: every `createPanorama` whose tiny texture loads adds a fresh set to the container, and `destroyPanorama` removes none, so the container of a re-created panorama carries two sets and one `dragstart` or `mouseenter` runs the start handler twice (leaving an orphan loop, as `DoubleStartOrphansLoop` shows for two starts). The model keeps one flag per id, `hoverWired[id]`, which the latest wiring overwrites and nothing removes; it does not capture the repeated handler runs, nor a container that carries both the drag and the touch listeners after the platform answer changed between creations.
- The remove-by-`bind` of `destroy` detaches no scroll listener, and `handleScroll` then returns early without an element; the model has the same effect.
- Animation-frame ids, timers and objects are abstract handles that start from 0. The falsy value 0 of a `requestAnimationFrame` id is not modelled; browsers issue ids from 1.
- Notification of subscribers: every `scrollState.next` in the service notifies the subscribers at once, so each notifies twice: `handleScroll` with the old window and then the new one; `initialize` with the new window and the old `totalItems`, then with the new `totalItems`. The model keeps only the state cell; the subscription callbacks `OnScrollState` of directive and component are separate events that no service method triggers, and they are given the state at the moment they run.
- The panorama viewer components, the root component, the type declarations and the trivial test file are not part of this model.
- `isItemCentered`: bounding boxes are exact `real`s rather than floating-point numbers, so the comparison has no rounding.
- `isItemCentered`: the item's bounding box is an input, and the `data-index` lookup is the presence or absence of that box.
- PanoramaServiceModel.PanoramaService.NewHandle and VirtualScrollServiceModel.VirtualScrollService.NewHandle stand for object creation, `requestAnimationFrame` and `setTimeout`; they are helpers with no source counterpart of their own.
