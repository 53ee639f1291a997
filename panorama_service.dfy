/** `PanoramaService` (src/app/services/panorama.service.ts) as an object
    whose fields the operations update in place. `Model()` reads the fields
    as a `State`, and every method ends in the state its function in
    `PanoramaOps` computes from the state it started in, so the properties
    proved about those functions hold of the object. */
module PanoramaServiceModel {
  import opened Common
  import opened PanoramaState
  import opened PanoramaOps

  class PanoramaService {
    /** `isPlatformBrowser(this.platformId)`. */
    const browser: bool
    /** The object registries (`scenes`, `cameras`, `renderers`, ...). */
    var reg: Registry
    /** `isHovered`, `isVisible` and what the document shows. */
    var disp: Display
    /** The centre observer and the hover listeners. */
    var wiring: Wiring
    /** `animationFrames` and the browser's queues. */
    var rt: Runtime
    var activePanoramaId: Option<string>
    var panoramaOrder: seq<string>
    var capturedPanoramas: set<string>
    /** The `BehaviorSubject` values of `loadingStates`. */
    var loadingStates: map<string, bool>

    /** The fields as a `State`. */
    function Model(): State
      reads this
    {
      State(browser, reg, disp, wiring, rt, activePanoramaId, panoramaOrder, capturedPanoramas, loadingStates)
    }

    constructor (browser: bool)
      ensures Model() == Initial(browser)
    {
      this.browser := browser;
      var s := Initial(browser);
      reg, disp, wiring, rt := s.reg, s.disp, s.wiring, s.rt;
      activePanoramaId, panoramaOrder, capturedPanoramas, loadingStates := None, [], {}, map[];
    }

    /** A handle that no earlier call returned. */
    method NewHandle() returns (t: Token)
      modifies this`rt
      ensures t == Token(old(rt.nextHandle))
      ensures rt == old(rt).(nextHandle := old(rt.nextHandle) + 1)
    {
      t := Token(rt.nextHandle);
      rt := rt.(nextHandle := rt.nextHandle + 1);
    }

    // ------------------------------------------------------------ rendering

    /** `stopRendering` (lines 958-964). */
    method StopRendering(id: string)
      modifies this`rt
      ensures Model() == PanoramaOps.StopRendering(old(Model()), id)
    {
      if id in rt.frames {
        rt := rt.(frames := rt.frames - {id}, scheduled := rt.scheduled - {rt.frames[id]});
      }
    }

    /** `setVisibility` (lines 115-129). */
    method SetVisibility(id: string, showRenderer: bool)
      modifies this`disp
      ensures Model() == PanoramaOps.SetVisibility(old(Model()), id, showRenderer)
    {
      if id !in reg.containers {
        return;
      }
      if id in reg.renderers {
        disp := disp.(canvasHidden := disp.canvasHidden - {id});
      }
      if id in reg.overlays {
        if showRenderer {
          disp := disp.(overlayShown := disp.overlayShown - {id});
        } else {
          disp := disp.(overlayShown := disp.overlayShown + {id});
        }
      }
    }

    /** One run of an `animate` closure. */
    method Animate(loop: Loop, dom: Dom)
      modifies this
      ensures Model() == PanoramaOps.Animate(old(Model()), loop, dom)
    {
      if !Continues(Model(), loop, dom) {
        rt := rt.(frames := rt.frames - {loop.id});
        return;
      }
      var h := NewHandle();
      rt := rt.(frames := rt.frames[loop.id := h], scheduled := rt.scheduled[h := loop]);
    }

    /** The animation frame `h` fires. */
    method Tick(h: Token, dom: Dom)
      modifies this
      ensures Model() == PanoramaOps.Tick(old(Model()), h, dom)
    {
      if h in rt.scheduled {
        var loop := rt.scheduled[h];
        rt := rt.(scheduled := rt.scheduled - {h});
        Animate(loop, dom);
      }
    }

    /** `startRendering` (lines 932-956). */
    method StartRendering(id: string, dom: Dom)
      modifies this
      ensures Model() == PanoramaOps.StartRendering(old(Model()), id, dom)
    {
      if RenderReady(Model(), id) {
        Animate(Loop(id, CenterLoop), dom);
      }
    }

    // --------------------------------------------------------- registration

    /** The scene and camera of `createPanorama` (lines 214-227). */
    method AddScene(id: string)
      modifies this`panoramaOrder, this`reg, this`rt
      ensures Model() == PanoramaOps.AddScene(old(Model()), id)
    {
      panoramaOrder := panoramaOrder + [id];
      var scene := NewHandle();
      var camera := NewHandle();
      reg := reg.(scenes := reg.scenes[id := scene], cameras := reg.cameras[id := camera]);
      rt := rt.(sceneChildren := rt.sceneChildren[scene := []]);
    }

    /** The container part of `createPanorama` (lines 236-263). */
    method ObserveContainer(id: string, container: Token)
      modifies this`reg, this`wiring, this`disp, this`rt
      ensures Model() == PanoramaOps.ObserveContainer(old(Model()), id, container)
    {
      reg := reg.(containers := reg.containers[id := container]);
      wiring := wiring.(hasCenterObserver := true, centerObserved := wiring.centerObserved + {id});
      var overlay := NewHandle();
      reg := reg.(overlays := reg.overlays[id := overlay]);
      disp := disp.(overlayShown := disp.overlayShown + {id});
    }

    /** The renderer part of `createPanorama` (lines 265-293). */
    method AddRenderer(id: string, scene: Token)
      modifies this`reg, this`disp, this`rt
      ensures Model() == PanoramaOps.AddRenderer(old(Model()), id, scene)
    {
      ghost var want := PanoramaOps.AddRenderer(Model(), id, scene);
      var n := rt.nextHandle;
      reg := reg.(canvases := reg.canvases[id := Token(n)], renderers := reg.renderers[id := Token(n + 1)],
                  controls := reg.controls[id := Token(n + 2)]);
      disp := disp.(attached := disp.attached + {id}, canvasHidden := disp.canvasHidden - {id});
      rt := rt.(pendingLoads := rt.pendingLoads + {Load(id, scene, false)}, nextHandle := n + 3);
      assert reg == want.reg && disp == want.disp && rt == want.rt;
    }

    /** `createPanorama` (lines 209-293) up to the tiny texture request. */
    method CreatePanorama(id: string, dom: Dom)
      modifies this
      ensures Model() == PanoramaOps.CreatePanorama(old(Model()), id, dom)
    {
      if !browser {
        return;
      }
      AddScene(id);
      if id in dom.elements {
        var scene := reg.scenes[id];
        ObserveContainer(id, dom.elements[id]);
        AddRenderer(id, scene);
      }
    }

    /** One panorama of `initializePanoramas` (lines 176-205). */
    method InitOne(id: string, dom: Dom)
      modifies this
      ensures Model() == PanoramaOps.InitOne(old(Model()), id, dom)
    {
      if !InitReady(Model(), id) {
        return;
      }
      if id in dom.complete {
        disp := disp.(canvasHidden := disp.canvasHidden - {id});
      } else {
        disp := disp.(canvasHidden := disp.canvasHidden + {id});
      }
      if activePanoramaId != Some(id) {
        StopRendering(id);
      }
    }

    /** `initializePanoramas` (lines 170-207): the loop over the first five
        ids of the order. */
    method InitializePanoramas(dom: Dom)
      modifies this
      ensures Model() == PanoramaOps.InitializePanoramas(old(Model()), dom)
    {
      if !browser {
        return;
      }
      var ids := InitialIds(Model());
      var i := 0;
      while i < |ids|
        invariant 0 <= i <= |ids|
        invariant InitEach(Model(), ids[i..], dom) == InitEach(old(Model()), ids, dom)
      {
        assert ids[i..][0] == ids[i] && ids[i..][1..] == ids[i + 1..];
        InitOne(ids[i], dom);
        i := i + 1;
      }
      assert ids[i..] == [];
    }

    /** The listeners of the rest of `createPanorama` (lines 295-302). */
    method WireHigh(id: string, scene: Token, dom: Dom)
      modifies this`reg, this`rt, this`wiring, this`disp
      ensures Model() == PanoramaOps.WireHigh(old(Model()), id, scene, dom)
    {
      if id in dom.elements {
        var obs := Token(rt.nextHandle);
        reg := reg.(observers := reg.observers[id := obs]);
        rt := rt.(nearObservers := rt.nearObservers[obs := Load(id, scene, true)], nextHandle := rt.nextHandle + 1);
      }
      if id in reg.containers {
        wiring := wiring.(hoverWired := wiring.hoverWired[id := dom.desktop]);
      }
      disp := disp.(visible := disp.visible[id := false]);
    }

    /** The rest of `createPanorama` (lines 295-308) once the tiny texture
        has loaded. */
    method FinishCreate(id: string, scene: Token, dom: Dom)
      modifies this
      ensures Model() == PanoramaOps.FinishCreate(old(Model()), id, scene, dom)
    {
      WireHigh(id, scene, dom);
      SetVisibility(id, false);
      if |panoramaOrder| == InitialBatch {
        InitializePanoramas(dom);
      }
    }

    // ------------------------------------------------------------- textures

    /** A texture request in flight settles successfully (lines 601-636). */
    method TextureSettled(load: Load)
      requires load in rt.pendingLoads
      modifies this`reg, this`rt, this`disp
      ensures Model() == PanoramaOps.TextureSettled(old(Model()), load)
    {
      var tex := Token(rt.nextHandle);
      var kids := Retextured(Children(Model(), load.scene), load.id in reg.textures, tex);
      reg := reg.(textures := reg.textures[load.id := tex]);
      rt := rt.(pendingLoads := rt.pendingLoads - {load}, sceneChildren := rt.sceneChildren[load.scene := kids],
                nextHandle := rt.nextHandle + 1);
      if load.id in reg.canvases {
        disp := disp.(canvasHidden := disp.canvasHidden - {load.id});
      }
    }

    /** A texture request in flight succeeds (lines 601-636, then 295-308). */
    method TextureLoaded(load: Load, dom: Dom)
      modifies this
      ensures Model() == PanoramaOps.TextureLoaded(old(Model()), load, dom)
    {
      if load !in rt.pendingLoads {
        return;
      }
      TextureSettled(load);
      if !load.isHigh {
        FinishCreate(load.id, load.scene, dom);
      }
    }

    /** A texture request in flight fails (lines 641-651). */
    method TextureFailed(load: Load)
      modifies this
      ensures Model() == PanoramaOps.TextureFailed(old(Model()), load)
    {
      if load !in rt.pendingLoads {
        return;
      }
      rt := rt.(pendingLoads := rt.pendingLoads - {load});
      if load.id !in reg.textures {
        var kids := Children(Model(), load.scene) + [Sphere(Basic(FallbackRed, None))];
        rt := rt.(sceneChildren := rt.sceneChildren[load.scene := kids]);
      }
    }

    /** The high-quality observer's callback (lines 661-670). */
    method NearViewport(obs: Token, intersecting: bool)
      modifies this
      ensures Model() == PanoramaOps.NearViewport(old(Model()), obs, intersecting)
    {
      if intersecting && obs in rt.nearObservers {
        var load := rt.nearObservers[obs];
        rt := rt.(pendingLoads := rt.pendingLoads + {load}, nearObservers := rt.nearObservers - {obs});
        reg := reg.(observers := reg.observers - {load.id});
      }
    }

    // ----------------------------------------------------------- activation

    /** `setActivePanorama` (lines 872-930). */
    method SetActivePanorama(id: string, dom: Dom)
      modifies this
      ensures Model() == PanoramaOps.SetActive(old(Model()), id, dom)
    {
      if !browser || !ActivationReady(Model(), id) {
        return;
      }
      if Truthy(activePanoramaId) && activePanoramaId.value != id {
        var prev := activePanoramaId.value;
        disp := disp.(hovered := disp.hovered[prev := false]);
        StopRendering(prev);
      }
      activePanoramaId := Some(id);
      disp := disp.(hovered := disp.hovered[id := true], attached := disp.attached + {id});
      SetVisibility(id, true);
      Animate(Loop(id, HoverLoop), dom);
    }

    /** `activatePanorama` (lines 313-362). */
    method ActivatePanorama(id: string, dom: Dom)
      modifies this
      ensures Model() == PanoramaOps.Activate(old(Model()), id, dom)
    {
      activePanoramaId := Some(id);
      disp := disp.(hovered := disp.hovered[id := true]);
      if !ActivationReady(Model(), id) {
        return;
      }
      disp := disp.(attached := disp.attached + {id});
      SetVisibility(id, true);
      Animate(Loop(id, HoverLoop), dom);
      var t := NewHandle();
      rt := rt.(timers := rt.timers[t := CaptureAfterActivation(id)]);
    }

    /** `ngOnInit` (lines 40-53). */
    method NgOnInit()
      modifies this
      ensures Model() == PanoramaOps.NgOnInit(old(Model()))
    {
      if browser {
        var t := NewHandle();
        rt := rt.(timers := rt.timers[t := FirstActivation]);
      }
    }

    /** The deactivation step of the `startRendering` hover handler
        (lines 377-402). */
    method HoverYield(id: string)
      modifies this`rt, this`disp
      ensures Model() == PanoramaOps.HoverYield(old(Model()), id)
    {
      if Truthy(activePanoramaId) && activePanoramaId.value != id && activePanoramaId.value in reg.containers {
        var prev := activePanoramaId.value;
        StopRendering(prev);
        SetVisibility(prev, false);
      }
    }

    /** The `startRendering` hover handler (lines 374-427). */
    method HoverStart(id: string, dom: Dom)
      modifies this
      ensures Model() == PanoramaOps.HoverStart(old(Model()), id, dom)
    {
      if id !in wiring.hoverWired {
        return;
      }
      HoverYield(id);
      activePanoramaId := Some(id);
      disp := disp.(hovered := disp.hovered[id := true]);
      SetVisibility(id, true);
      if id in reg.canvases {
        disp := disp.(attached := disp.attached + {id});
      }
      StartRendering(id, dom);
    }

    /** The `stopRendering` hover handler (lines 429-451). */
    method HoverStop(id: string, dom: Dom)
      modifies this
      ensures Model() == PanoramaOps.HoverStop(old(Model()), id, dom)
    {
      if id !in wiring.hoverWired {
        return;
      }
      disp := disp.(hovered := disp.hovered[id := false]);
      if activePanoramaId == Some(id) {
        activePanoramaId := None;
      }
      if IsPanoramaCentered(Model(), id, dom) {
        return;
      }
      StopRendering(id);
      SetVisibility(id, false);
      if id in reg.canvases {
        disp := disp.(attached := disp.attached - {id});
      }
    }

    /** The centre observer's callback (lines 137-160, 459-462). */
    method CenterEntry(id: string, centeredEntry: bool, dom: Dom)
      modifies this
      ensures Model() == PanoramaOps.CenterEntry(old(Model()), id, centeredEntry, dom)
    {
      if wiring.hasCenterObserver && id in wiring.centerObserved && centeredEntry && activePanoramaId != Some(id)
         && id in reg.containers && id in wiring.hoverWired && wiring.hoverWired[id] {
        HoverStart(id, dom);
      }
    }

    // -------------------------------------------------------------- capture

    /** `setLoadingState` (lines 64-69). */
    method SetLoadingState(id: string, v: bool)
      modifies this`loadingStates
      ensures Model() == PanoramaOps.SetLoadingState(old(Model()), id, v)
    {
      loadingStates := loadingStates[id := v];
    }

    /** `getLoadingState` (lines 56-61). */
    method GetLoadingState(id: string) returns (v: bool)
      modifies this
      ensures (Model(), v) == PanoramaOps.GetLoadingState(old(Model()), id)
    {
      if id !in loadingStates {
        loadingStates := loadingStates[id := false];
      }
      v := loadingStates[id];
    }

    /** `takeScreenshot` (lines 555-592): whether a data URL was produced. */
    method TakeScreenshot(id: string) returns (ok: bool)
      modifies this
      ensures (Model(), ok) == PanoramaOps.TakeScreenshot(old(Model()), id)
    {
      ok := ScreenshotReady(Model(), id);
      if ok {
        disp := disp.(attached := disp.attached + {id}, canvasHidden := disp.canvasHidden - {id});
      }
    }

    /** One iteration of the capture loop (lines 785-841); `thrown` when the
        detached loading placeholder has no last child. */
    method CaptureOne(pid: string, dom: Dom) returns (thrown: bool)
      modifies this
      ensures (Model(), thrown) == PanoramaOps.CaptureOne(old(Model()), pid, dom)
    {
      if pid in capturedPanoramas || !CaptureReady(Model(), pid) {
        return false;
      }
      if pid !in reg.loadingOverlays && pid !in reg.containers {
        return true;
      }
      if pid !in reg.loadingOverlays {
        var overlay := NewHandle();
        reg := reg.(loadingOverlays := reg.loadingOverlays[pid := overlay]);
        disp := disp.(visible := disp.visible[pid := false]);
      }
      SetLoadingState(pid, true);
      var _ := TakeScreenshot(pid);
      disp := disp.(overlayShown := disp.overlayShown + {pid});
      capturedPanoramas := capturedPanoramas + {pid};
      SetLoadingState(pid, false);
      thrown := false;
    }

    /** `captureNextThreeScreenshots` (lines 765-843): the loop over the
        neighbour window, left at the first throw. */
    method Capture(dom: Dom)
      modifies this
      ensures Model() == PanoramaOps.Capture(old(Model()), dom)
    {
      var targets := CaptureTargets(Model());
      if targets.None? {
        return;
      }
      var ts := targets.value;
      var i := 0;
      var thrown := false;
      while i < |ts| && !thrown
        invariant 0 <= i <= |ts|
        invariant !thrown ==> CaptureEach(Model(), ts[i..], dom).0 == CaptureEach(old(Model()), ts, dom).0
        invariant thrown ==> Model() == CaptureEach(old(Model()), ts, dom).0
      {
        assert ts[i..][0] == ts[i] && ts[i..][1..] == ts[i + 1..];
        thrown := CaptureOne(ts[i], dom);
        i := i + 1;
      }
      if !thrown {
        assert ts[i..] == [];
      }
    }

    /** A timer's callback: the first activation of `ngOnInit` (lines 43-51)
        or the capture of `activatePanorama` (lines 357-361). */
    method TimerFired(t: Token, dom: Dom)
      modifies this
      ensures Model() == PanoramaOps.TimerFired(old(Model()), t, dom)
    {
      if t !in rt.timers {
        return;
      }
      var timer := rt.timers[t];
      rt := rt.(timers := rt.timers - {t});
      match timer
      case FirstActivation =>
        if |panoramaOrder| > 0 {
          ActivatePanorama(panoramaOrder[0], dom);
        }
      case CaptureAfterActivation(id) =>
        if id !in capturedPanoramas {
          Capture(dom);
        }
    }

    // -------------------------------------------------------------- destroy

    /** The display part of `destroyPanorama` (lines 689-761). */
    method Detach(id: string)
      modifies this`activePanoramaId, this`capturedPanoramas, this`wiring, this`disp
      ensures Model() == PanoramaOps.Detach(old(Model()), id)
    {
      if activePanoramaId == Some(id) {
        activePanoramaId := None;
      }
      capturedPanoramas := capturedPanoramas - {id};
      if wiring.hasCenterObserver && id in reg.containers {
        wiring := wiring.(centerObserved := wiring.centerObserved - {id});
      }
      disp := Display(disp.hovered - {id}, disp.visible - {id},
                      if id in reg.canvases then disp.attached - {id} else disp.attached,
                      if id in reg.canvases then disp.canvasHidden - {id} else disp.canvasHidden,
                      if id in reg.overlays then disp.overlayShown - {id} else disp.overlayShown);
    }

    /** The object part of `destroyPanorama` (lines 704-760). */
    method Dispose(id: string)
      modifies this`reg, this`rt
      ensures Model() == PanoramaOps.Dispose(old(Model()), id)
    {
      if id in reg.observers {
        rt := rt.(nearObservers := rt.nearObservers - {reg.observers[id]});
      }
      rt := rt.(disposed := rt.disposed + DisposedBy(Model(), id));
      reg := Unregister(reg, id);
    }

    /** `destroyPanorama` (lines 683-763). */
    method DestroyPanorama(id: string)
      modifies this
      ensures Model() == PanoramaOps.Destroy(old(Model()), id)
    {
      if !browser {
        return;
      }
      StopRendering(id);
      Detach(id);
      Dispose(id);
    }
  }
}
