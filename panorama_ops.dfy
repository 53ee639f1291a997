/** The operations of `PanoramaService` (src/app/services/panorama.service.ts)
    as functions from the old state to the new one. Browser callbacks (texture
    outcomes, observer entries, animation frames, timers, hover events) are
    operations of their own, applied when the browser would run them. */
module PanoramaOps {
  import opened Common
  import opened PanoramaState
  import opened CaptureWindow

  /** `a` holds some of `b`'s entries, unchanged. */
  predicate SubMap<K, V(==)>(a: map<K, V>, b: map<K, V>) {
    forall k | k in a :: k in b && a[k] == b[k]
  }

  lemma SubMapTransitive<K, V>(a: map<K, V>, b: map<K, V>, c: map<K, V>)
    requires SubMap(a, b) && SubMap(b, c)
    ensures SubMap(a, c)
  {
  }

  // ---------------------------------------------------------------- rendering

  /** `stopRendering`: cancel the panorama's latest frame and forget it. */
  function StopRendering(s: State, id: string): (r: State)
    ensures r.rt.frames == s.rt.frames - {id}
    ensures id in s.rt.frames ==> r.rt.scheduled == s.rt.scheduled - {s.rt.frames[id]}
    ensures r == s.(rt := s.rt.(frames := r.rt.frames, scheduled := r.rt.scheduled))
  {
    if id in s.rt.frames then
      s.(rt := s.rt.(frames := s.rt.frames - {id}, scheduled := s.rt.scheduled - {s.rt.frames[id]}))
    else s
  }

  /** `setVisibility`: with a container, the canvas is shown (when there is a
      renderer) and the overlay is hidden exactly when the renderer is shown. */
  function SetVisibility(s: State, id: string, showRenderer: bool): (r: State)
    ensures id !in s.reg.containers ==> r == s
    ensures id in s.reg.containers && id in s.reg.overlays ==> (id in r.disp.overlayShown <==> !showRenderer)
    ensures id in s.reg.containers && id in s.reg.renderers ==> id !in r.disp.canvasHidden
    ensures r.disp.canvasHidden - {id} == s.disp.canvasHidden - {id}
    ensures r.disp.overlayShown - {id} == s.disp.overlayShown - {id}
    ensures id !in s.disp.canvasHidden ==> id !in r.disp.canvasHidden
    ensures r == s.(disp := s.disp.(canvasHidden := r.disp.canvasHidden, overlayShown := r.disp.overlayShown))
  {
    if id !in s.reg.containers then s
    else
      var d := s.disp;
      s.(disp := d.(
        canvasHidden := if id in s.reg.renderers then d.canvasHidden - {id} else d.canvasHidden,
        overlayShown := if id !in s.reg.overlays then d.overlayShown
                        else if showRenderer then d.overlayShown - {id}
                        else d.overlayShown + {id}))
  }

  /** One run of an `animate` closure: it either forgets its frame and stops,
      or requests a fresh frame that will run it again. */
  function Animate(s: State, loop: Loop, dom: Dom): (r: State)
    ensures LiveLoop(r, loop.id) <==> Continues(s, loop, dom)
    ensures !Continues(s, loop, dom) ==> loop.id !in r.rt.frames
  {
    if !Continues(s, loop, dom) then s.(rt := s.rt.(frames := s.rt.frames - {loop.id}))
    else
      var h := Token(s.rt.nextHandle);
      s.(rt := s.rt.(frames := s.rt.frames[loop.id := h], scheduled := s.rt.scheduled[h := loop],
                     nextHandle := s.rt.nextHandle + 1))
  }

  /** The animation frame `h` fires: its request is consumed and its loop runs
      once. A hover loop goes on exactly while its panorama is hovered; a
      centre loop while it is hovered or centered. */
  function Tick(s: State, h: Token, dom: Dom): (r: State)
    ensures h !in s.rt.scheduled ==> r == s
    ensures h in s.rt.scheduled && s.rt.scheduled[h].kind == HoverLoop ==>
      (s.rt.scheduled[h].id in r.rt.frames <==> Hovered(s, s.rt.scheduled[h].id))
    ensures h in s.rt.scheduled && s.rt.scheduled[h].kind == CenterLoop ==>
      (s.rt.scheduled[h].id in r.rt.frames <==>
         Hovered(s, s.rt.scheduled[h].id) || IsPanoramaCentered(s, s.rt.scheduled[h].id, dom))
  {
    if h !in s.rt.scheduled then s
    else Animate(s.(rt := s.rt.(scheduled := s.rt.scheduled - {h})), s.rt.scheduled[h], dom)
  }

  /** `startRendering`: without renderer, scene, camera or controls nothing
      happens; otherwise a centre loop runs once. */
  function StartRendering(s: State, id: string, dom: Dom): (r: State)
    ensures !RenderReady(s, id) ==> r == s
    ensures RenderReady(s, id) ==> (LiveLoop(r, id) <==> Continues(s, Loop(id, CenterLoop), dom))
  {
    if !RenderReady(s, id) then s else Animate(s, Loop(id, CenterLoop), dom)
  }

  // ------------------------------------------------------------ registration

  /** The first part of `createPanorama`: the id joins the order and gets a
      new scene, with no children, and a camera. */
  function AddScene(s: State, id: string): (r: State)
    ensures r.order == s.order + [id] && id in r.reg.scenes && id in r.reg.cameras
    ensures r.reg.scenes[id] == Token(s.rt.nextHandle) && Children(r, r.reg.scenes[id]) == []
  {
    var n := s.rt.nextHandle;
    s.(order := s.order + [id],
       reg := s.reg.(scenes := s.reg.scenes[id := Token(n)], cameras := s.reg.cameras[id := Token(n + 1)]),
       rt := s.rt.(sceneChildren := s.rt.sceneChildren[Token(n) := []], nextHandle := n + 2))
  }

  /** The container part of `createPanorama`: the container is registered
      and observed for centring, and gets a shown overlay. */
  function ObserveContainer(s: State, id: string, container: Token): (r: State)
    ensures id in r.reg.containers && id in r.reg.overlays && id in r.disp.overlayShown
    ensures r.wiring.hasCenterObserver && id in r.wiring.centerObserved
  {
    s.(reg := s.reg.(containers := s.reg.containers[id := container],
                     overlays := s.reg.overlays[id := Token(s.rt.nextHandle)]),
       wiring := s.wiring.(hasCenterObserver := true, centerObserved := s.wiring.centerObserved + {id}),
       disp := s.disp.(overlayShown := s.disp.overlayShown + {id}),
       rt := s.rt.(nextHandle := s.rt.nextHandle + 1))
  }

  /** The renderer part of `createPanorama`: an attached, shown canvas, a
      renderer and controls, and the request for the tiny image of `scene`. */
  function AddRenderer(s: State, id: string, scene: Token): (r: State)
    ensures id in r.reg.canvases && id in r.reg.renderers && id in r.reg.controls
    ensures Load(id, scene, false) in r.rt.pendingLoads
    ensures id in r.disp.attached && id !in r.disp.canvasHidden
  {
    var n := s.rt.nextHandle;
    s.(reg := s.reg.(canvases := s.reg.canvases[id := Token(n)],
                     renderers := s.reg.renderers[id := Token(n + 1)],
                     controls := s.reg.controls[id := Token(n + 2)]),
       disp := s.disp.(attached := s.disp.attached + {id}, canvasHidden := s.disp.canvasHidden - {id}),
       rt := s.rt.(pendingLoads := s.rt.pendingLoads + {Load(id, scene, false)}, nextHandle := n + 3))
  }

  /** The second part of `createPanorama`, for a container element. */
  function AddContainer(s: State, id: string, container: Token, scene: Token): (r: State)
    requires id in s.reg.scenes && id in s.reg.cameras
    ensures ActivationReady(r, id) && Load(id, scene, false) in r.rt.pendingLoads
    ensures id in r.disp.overlayShown && id in r.disp.attached && id !in r.disp.canvasHidden
  {
    AddRenderer(ObserveContainer(s, id, container), id, scene)
  }

  /** `createPanorama` up to the request for the tiny texture: `AddScene`,
      then, only when the container element exists, `AddContainer`. */
  function CreatePanorama(s: State, id: string, dom: Dom): (r: State)
    ensures !s.browser ==> r == s
    ensures s.browser ==>
      r.order == s.order + [id] && id in r.reg.scenes && id in r.reg.cameras
      && Children(r, r.reg.scenes[id]) == []
    ensures s.browser && id !in dom.elements ==> r.reg.containers == s.reg.containers && r.rt.pendingLoads == s.rt.pendingLoads
    ensures s.browser && id in dom.elements ==>
      ActivationReady(r, id) && Load(id, r.reg.scenes[id], false) in r.rt.pendingLoads
  {
    if !s.browser then s
    else
      var s1 := AddScene(s, id);
      if id !in dom.elements then s1 else AddContainer(s1, id, dom.elements[id], s1.reg.scenes[id])
  }

  /** One panorama of `initializePanoramas`: with renderer, scene, camera,
      canvas and texture, the canvas is shown exactly when the texture's image
      is complete, and a panorama other than the active one stops rendering. */
  function InitOne(s: State, id: string, dom: Dom): (r: State)
    ensures !InitReady(s, id) ==> r == s
    ensures InitReady(s, id) ==> (id in r.disp.canvasHidden <==> id !in dom.complete)
    ensures InitReady(s, id) && s.activeId != Some(id) ==> id !in r.rt.frames
    ensures InitReady(s, id) && s.activeId != Some(id) ==> r.rt == StopRendering(s, id).rt
    ensures !(InitReady(s, id) && s.activeId != Some(id)) ==> r.rt == s.rt
    ensures r.disp.canvasHidden - {id} == s.disp.canvasHidden - {id}
    ensures r == s.(disp := s.disp.(canvasHidden := r.disp.canvasHidden),
                     rt := s.rt.(frames := r.rt.frames, scheduled := r.rt.scheduled))
  {
    if !InitReady(s, id) then s
    else
      var s1 := if id in dom.complete then s.(disp := s.disp.(canvasHidden := s.disp.canvasHidden - {id}))
                else s.(disp := s.disp.(canvasHidden := s.disp.canvasHidden + {id}));
      if s1.activeId != Some(id) then StopRendering(s1, id) else s1
  }

  /** The ids of `ids` whose animation `initializePanoramas` stops: those
      with all its components that are not the active one. */
  function InitStopped(s: State, ids: seq<string>): set<string> {
    set x | x in ids && InitReady(s, x) && s.activeId != Some(x)
  }

  /** The frame requests those stops cancel. */
  function InitCancelled(s: State, ids: seq<string>): set<Token> {
    set x | x in InitStopped(s, ids) && x in s.rt.frames :: s.rt.frames[x]
  }

  /** One step of the loop below: what is left to stop, and to cancel,
      after the first id is the rest of what was. */
  lemma InitStep(s: State, ids: seq<string>, dom: Dom)
    requires |ids| > 0
    ensures var s1 := InitOne(s, ids[0], dom);
      s.rt.frames - InitStopped(s, ids) == s1.rt.frames - InitStopped(s1, ids[1..])
      && s.rt.scheduled - InitCancelled(s, ids) == s1.rt.scheduled - InitCancelled(s1, ids[1..])
  {
    var i := ids[0];
    var s1 := InitOne(s, i, dom);
    var stop := InitReady(s, i) && s.activeId != Some(i);
    assert InitStopped(s, ids) == InitStopped(s1, ids[1..]) + (if stop then {i} else {}) by {
      forall x ensures x in InitStopped(s, ids) <==> x in InitStopped(s1, ids[1..]) + (if stop then {i} else {}) {
        assert x in ids <==> x == i || x in ids[1..];
      }
    }
    if stop && i in s.rt.frames {
      assert InitCancelled(s, ids) == InitCancelled(s1, ids[1..]) + {s.rt.frames[i]};
    } else {
      assert InitCancelled(s, ids) == InitCancelled(s1, ids[1..]);
    }
  }

  /** The loop of `initializePanoramas` over `ids`. */
  function InitEach(s: State, ids: seq<string>, dom: Dom): (r: State)
    ensures forall x | x in ids && InitReady(s, x) && s.activeId != Some(x) :: x !in r.rt.frames
    ensures forall x | x in ids && InitReady(s, x) :: x in r.disp.canvasHidden <==> x !in dom.complete
    ensures forall x | x !in ids :: x in r.disp.canvasHidden <==> x in s.disp.canvasHidden
    ensures SubMap(r.rt.frames, s.rt.frames)
    ensures r.rt.frames == s.rt.frames - InitStopped(s, ids)
    ensures r.rt.scheduled == s.rt.scheduled - InitCancelled(s, ids)
    ensures r == s.(disp := s.disp.(canvasHidden := r.disp.canvasHidden),
                     rt := s.rt.(frames := r.rt.frames, scheduled := r.rt.scheduled))
    decreases |ids|
  {
    if |ids| == 0 then s
    else
      var s1 := InitOne(s, ids[0], dom);
      var r := InitEach(s1, ids[1..], dom);
      SubMapTransitive(r.rt.frames, s1.rt.frames, s.rt.frames);
      assert SubMap(s1.rt.frames, s.rt.frames);
      InitStep(s, ids, dom);
      r
  }

  /** The first `InitialBatch` ids of the order. */
  function InitialIds(s: State): (ids: seq<string>)
    ensures |ids| == Min(InitialBatch, |s.order|) && ids <= s.order
  {
    s.order[..Min(InitialBatch, |s.order|)]
  }

  /** `initializePanoramas`: every complete one of the first five ids that is
      not the active one ends without an animation frame; nothing but canvas
      display and frames changes. */
  function InitializePanoramas(s: State, dom: Dom): (r: State)
    ensures !s.browser ==> r == s
    ensures s.browser ==>
      forall x | x in InitialIds(s) && InitReady(s, x) && s.activeId != Some(x) :: x !in r.rt.frames
    ensures s.browser ==>
      forall x | x in InitialIds(s) && InitReady(s, x) :: x in r.disp.canvasHidden <==> x !in dom.complete
    ensures forall x | x !in InitialIds(s) :: x in r.disp.canvasHidden <==> x in s.disp.canvasHidden
    ensures SubMap(r.rt.frames, s.rt.frames)
    ensures s.browser ==>
      r.rt.frames == s.rt.frames - InitStopped(s, InitialIds(s))
      && r.rt.scheduled == s.rt.scheduled - InitCancelled(s, InitialIds(s))
    ensures r == s.(disp := s.disp.(canvasHidden := r.disp.canvasHidden),
                     rt := s.rt.(frames := r.rt.frames, scheduled := r.rt.scheduled))
  {
    if !s.browser then s else InitEach(s, InitialIds(s), dom)
  }

  /** The high-quality observer of `id` is connected and will request `load`. */
  predicate NearObserverFor(s: State, id: string, load: Load) {
    id in s.reg.observers && s.reg.observers[id] in s.rt.nearObservers
    && s.rt.nearObservers[s.reg.observers[id]] == load
  }

  /** The listeners of the rest of `createPanorama`: a high-quality
      observer when the element is still in the document, the hover listeners
      when the container is registered, and a false `isVisible` flag. */
  function WireHigh(s: State, id: string, scene: Token, dom: Dom): (r: State)
    ensures id in dom.elements ==> NearObserverFor(r, id, Load(id, scene, true))
    ensures id in s.reg.containers ==> id in r.wiring.hoverWired && r.wiring.hoverWired[id] == dom.desktop
    ensures id in r.disp.visible && !r.disp.visible[id]
    ensures id !in dom.elements ==> r.reg.observers == s.reg.observers && r.rt.nearObservers == s.rt.nearObservers
    ensures id !in s.reg.containers ==> r.wiring.hoverWired == s.wiring.hoverWired
    ensures r.reg.observers - {id} == s.reg.observers - {id} && r.disp.visible - {id} == s.disp.visible - {id}
    ensures r.wiring.hoverWired - {id} == s.wiring.hoverWired - {id}
    ensures r == s.(reg := s.reg.(observers := r.reg.observers), disp := s.disp.(visible := r.disp.visible),
                     wiring := s.wiring.(hoverWired := r.wiring.hoverWired),
                     rt := s.rt.(nearObservers := r.rt.nearObservers, nextHandle := r.rt.nextHandle))
  {
    var s1 :=
      if id in dom.elements then
        var obs := Token(s.rt.nextHandle);
        s.(reg := s.reg.(observers := s.reg.observers[id := obs]),
           rt := s.rt.(nearObservers := s.rt.nearObservers[obs := Load(id, scene, true)],
                       nextHandle := s.rt.nextHandle + 1))
      else s;
    var s2 := if id in s1.reg.containers then s1.(wiring := s1.wiring.(hoverWired := s1.wiring.hoverWired[id := dom.desktop]))
              else s1;
    s2.(disp := s2.disp.(visible := s2.disp.visible[id := false]))
  }

  /** The rest of `createPanorama`, run once the tiny texture has loaded:
      `WireHigh`, the overlay shown, and `initializePanoramas` when this made
      the order five long. */
  function FinishCreate(s: State, id: string, scene: Token, dom: Dom): (r: State)
    ensures id in dom.elements ==> NearObserverFor(r, id, Load(id, scene, true))
    ensures id in s.reg.containers ==> id in r.wiring.hoverWired && r.wiring.hoverWired[id] == dom.desktop
    ensures id in r.disp.visible && !r.disp.visible[id]
    ensures r.reg.textures == s.reg.textures && r.rt.sceneChildren == s.rt.sceneChildren
            && r.rt.pendingLoads == s.rt.pendingLoads
    ensures id in s.reg.containers && id in s.reg.overlays ==> id in r.disp.overlayShown
    ensures |s.order| != InitialBatch || !s.browser ==> r.rt.frames == s.rt.frames && r.rt.scheduled == s.rt.scheduled
    ensures |s.order| == InitialBatch && s.browser ==>
      r.rt.frames == s.rt.frames - InitStopped(s, InitialIds(s))
      && r.rt.scheduled == s.rt.scheduled - InitCancelled(s, InitialIds(s))
    ensures r.rt == s.rt.(frames := r.rt.frames, scheduled := r.rt.scheduled,
                          nearObservers := r.rt.nearObservers, nextHandle := r.rt.nextHandle)
    ensures r.order == s.order && r.activeId == s.activeId && r.captured == s.captured
            && r.loadingStates == s.loadingStates && r.reg == s.reg.(observers := r.reg.observers)
    ensures |s.order| != InitialBatch && id in s.reg.containers && id in s.reg.renderers ==> id !in r.disp.canvasHidden
    ensures |s.order| == InitialBatch && s.browser ==>
      forall x | x in InitialIds(s) && InitReady(s, x) && s.activeId != Some(x) :: x !in r.rt.frames
    ensures |s.order| == InitialBatch && s.browser ==>
      forall x | x in InitialIds(s) && InitReady(s, x) :: x in r.disp.canvasHidden <==> x !in dom.complete
  {
    var s3 := SetVisibility(WireHigh(s, id, scene, dom), id, false);
    assert InitialIds(s3) == InitialIds(s);
    assert InitStopped(s3, InitialIds(s)) == InitStopped(s, InitialIds(s)) by {
      forall x ensures InitReady(s3, x) == InitReady(s, x) {}
    }
    if |s3.order| == InitialBatch then InitializePanoramas(s3, dom) else s3
  }

  // ---------------------------------------------------------------- textures

  /** The scene's children after a successful load of texture `tex`. */
  function Retextured(kids: seq<Mesh>, hadTexture: bool, tex: Token): (r: seq<Mesh>)
    ensures !hadTexture ==> r == kids + [Sphere(Basic(White, Some(tex)))]
    ensures hadTexture ==> |r| == |kids|
    ensures hadTexture && |kids| > 0 ==>
      r[0] == Sphere(kids[0].material.(texture := Some(tex))) && r[1..] == kids[1..]
  {
    if !hadTexture then kids + [Sphere(Basic(White, Some(tex)))]
    else if |kids| > 0 then [Sphere(kids[0].material.(texture := Some(tex)))] + kids[1..]
    else kids
  }

  /** A texture request settles successfully: the new texture becomes the
      panorama's current one. If the panorama had a texture, the scene's first
      mesh gets the new map (a scene without children is left as it is);
      otherwise one sphere with the new map is added. The canvas is shown. */
  function TextureSettled(s: State, load: Load): (r: State)
    requires load in s.rt.pendingLoads
    ensures load !in r.rt.pendingLoads && load.id in r.reg.textures && r.reg.textures[load.id] == Token(s.rt.nextHandle)
    ensures Children(r, load.scene) == Retextured(Children(s, load.scene), load.id in s.reg.textures, Token(s.rt.nextHandle))
    ensures r.rt.nextHandle == s.rt.nextHandle + 1 && r.reg.canvases == s.reg.canvases
    ensures load.id in s.reg.canvases ==> load.id !in r.disp.canvasHidden
  {
    var tex := Token(s.rt.nextHandle);
    var kids := Retextured(Children(s, load.scene), load.id in s.reg.textures, tex);
    var s1 := s.(reg := s.reg.(textures := s.reg.textures[load.id := tex]),
                 rt := s.rt.(pendingLoads := s.rt.pendingLoads - {load},
                             sceneChildren := s.rt.sceneChildren[load.scene := kids],
                             nextHandle := s.rt.nextHandle + 1));
    if load.id in s1.reg.canvases then s1.(disp := s1.disp.(canvasHidden := s1.disp.canvasHidden - {load.id}))
    else s1
  }

  /** A texture request succeeds: it settles, and a tiny load then finishes
      `createPanorama`. */
  function TextureLoaded(s: State, load: Load, dom: Dom): (r: State)
    ensures load !in s.rt.pendingLoads ==> r == s
    ensures load in s.rt.pendingLoads ==>
      load !in r.rt.pendingLoads && load.id in r.reg.textures && r.reg.textures[load.id] == Token(s.rt.nextHandle)
      && Children(r, load.scene) == Retextured(Children(s, load.scene), load.id in s.reg.textures, Token(s.rt.nextHandle))
    ensures load in s.rt.pendingLoads && !load.isHigh && load.id in dom.elements ==>
      NearObserverFor(r, load.id, Load(load.id, load.scene, true))
    ensures load in s.rt.pendingLoads && load.id in s.reg.canvases && (load.isHigh || |s.order| != InitialBatch) ==>
      load.id !in r.disp.canvasHidden
  {
    if load !in s.rt.pendingLoads then s
    else
      var s1 := TextureSettled(s, load);
      if load.isHigh then s1 else FinishCreate(s1, load.id, load.scene, dom)
  }

  /** A texture request fails: without a current texture a red fallback
      sphere is added. When it was the tiny image, the rest of
      `createPanorama` never runs. */
  function TextureFailed(s: State, load: Load): (r: State)
    ensures load !in s.rt.pendingLoads ==> r == s
    ensures load in s.rt.pendingLoads ==> load !in r.rt.pendingLoads && r.reg == s.reg
    ensures load in s.rt.pendingLoads && load.id in s.reg.textures ==> Children(r, load.scene) == Children(s, load.scene)
    ensures load in s.rt.pendingLoads && load.id !in s.reg.textures ==>
      Children(r, load.scene) == Children(s, load.scene) + [Sphere(Basic(FallbackRed, None))]
  {
    if load !in s.rt.pendingLoads then s
    else
      var s1 := s.(rt := s.rt.(pendingLoads := s.rt.pendingLoads - {load}));
      if load.id in s1.reg.textures then s1
      else
        s1.(rt := s1.rt.(sceneChildren := s1.rt.sceneChildren[load.scene :=
              Children(s1, load.scene) + [Sphere(Basic(FallbackRed, None))]]))
  }

  /** The high-quality observer `obs` reports an entry: when it intersects,
      the high-quality image is requested, the observer disconnects, and the
      `observers` entry of its panorama's id is deleted. */
  function NearViewport(s: State, obs: Token, intersecting: bool): (r: State)
    ensures !(intersecting && obs in s.rt.nearObservers) ==> r == s
    ensures intersecting && obs in s.rt.nearObservers ==>
      r.rt.pendingLoads == s.rt.pendingLoads + {s.rt.nearObservers[obs]}
      && obs !in r.rt.nearObservers && s.rt.nearObservers[obs].id !in r.reg.observers
  {
    if intersecting && obs in s.rt.nearObservers then
      var load := s.rt.nearObservers[obs];
      s.(reg := s.reg.(observers := s.reg.observers - {load.id}),
         rt := s.rt.(pendingLoads := s.rt.pendingLoads + {load}, nearObservers := s.rt.nearObservers - {obs}))
    else s
  }

  // -------------------------------------------------------------- activation

  /** `setActivePanorama`. Off the browser, or with any of container, canvas,
      scene, camera, renderer or controls missing, nothing changes. Otherwise
      a different truthy active id loses its hover flag and its frame; then
      the id becomes active and hovered, its canvas is attached and shown,
      its overlay hidden, and a hover loop starts for it. */
  function SetActive(s: State, id: string, dom: Dom): (r: State)
    ensures !s.browser || !ActivationReady(s, id) ==> r == s
    ensures s.browser && ActivationReady(s, id) ==>
      r.activeId == Some(id) && Hovered(r, id) && LiveLoop(r, id) && id in r.disp.attached
    ensures s.browser && ActivationReady(s, id) && Truthy(s.activeId) && s.activeId.value != id ==>
      !Hovered(r, s.activeId.value) && s.activeId.value !in r.rt.frames
    ensures s.browser && ActivationReady(s, id) ==>
      id !in r.disp.canvasHidden && (id in s.reg.overlays ==> id !in r.disp.overlayShown)
    ensures forall x | x != id && !(Truthy(s.activeId) && x == s.activeId.value) :: Hovered(r, x) == Hovered(s, x)
    ensures forall x | x in s.rt.frames && x != id && !(Truthy(s.activeId) && x == s.activeId.value) ::
      x in r.rt.frames && r.rt.frames[x] == s.rt.frames[x]
    ensures r.reg == s.reg && r.wiring == s.wiring && r.order == s.order && r.captured == s.captured
  {
    if !s.browser || !ActivationReady(s, id) then s
    else
      var s1 :=
        if Truthy(s.activeId) && s.activeId.value != id then
          StopRendering(s.(disp := s.disp.(hovered := s.disp.hovered[s.activeId.value := false])), s.activeId.value)
        else s;
      var s2 := s1.(activeId := Some(id),
                    disp := s1.disp.(hovered := s1.disp.hovered[id := true], attached := s1.disp.attached + {id}));
      Animate(SetVisibility(s2, id, true), Loop(id, HoverLoop), dom)
  }

  /** `activatePanorama`: the id becomes active and hovered before anything
      is checked; with all components it is attached and shown, a hover loop
      starts, and a capture timer is set. No other panorama is deactivated. */
  function Activate(s: State, id: string, dom: Dom): (r: State)
    ensures r.activeId == Some(id) && Hovered(r, id)
    ensures !ActivationReady(s, id) ==>
      r == s.(activeId := Some(id), disp := s.disp.(hovered := s.disp.hovered[id := true]))
    ensures ActivationReady(s, id) ==> LiveLoop(r, id) && CaptureAfterActivation(id) in r.rt.timers.Values
    ensures ActivationReady(s, id) ==>
      id in r.disp.attached && id !in r.disp.canvasHidden && (id in s.reg.overlays ==> id !in r.disp.overlayShown)
    ensures forall x | x != id :: Hovered(r, x) == Hovered(s, x)
    ensures forall x | x in s.rt.frames && x != id :: x in r.rt.frames && r.rt.frames[x] == s.rt.frames[x]
    ensures r.reg == s.reg && r.wiring == s.wiring && r.order == s.order && r.captured == s.captured
  {
    var s1 := s.(activeId := Some(id), disp := s.disp.(hovered := s.disp.hovered[id := true]));
    if !ActivationReady(s1, id) then s1
    else
      var s2 := Animate(SetVisibility(s1.(disp := s1.disp.(attached := s1.disp.attached + {id})), id, true),
                        Loop(id, HoverLoop), dom);
      var t := Token(s2.rt.nextHandle);
      var r := s2.(rt := s2.rt.(timers := s2.rt.timers[t := CaptureAfterActivation(id)], nextHandle := s2.rt.nextHandle + 1));
      assert r.rt.timers[t] == CaptureAfterActivation(id);
      r
  }

  /** `ngOnInit`: in the browser, a timer that will activate the first
      registered panorama. */
  function NgOnInit(s: State): (r: State)
    ensures !s.browser ==> r == s
    ensures s.browser ==> FirstActivation in r.rt.timers.Values
  {
    if !s.browser then s
    else
      var t := Token(s.rt.nextHandle);
      var r := s.(rt := s.rt.(timers := s.rt.timers[t := FirstActivation], nextHandle := s.rt.nextHandle + 1));
      assert r.rt.timers[t] == FirstActivation;
      r
  }

  // ------------------------------------------------------------------- hover

  /** A hover on `id` makes the active panorama yield: it is truthy,
      another one, and has a container. */
  predicate Yields(s: State, id: string) {
    Truthy(s.activeId) && s.activeId.value != id && s.activeId.value in s.reg.containers
  }

  /** The first step of the `startRendering` hover handler: a different
      truthy active id with a container stops rendering and shows its
      overlay, but keeps its hover flag. */
  function HoverYield(s: State, id: string): (r: State)
    ensures !Yields(s, id) ==> r == s
    ensures Yields(s, id) ==> s.activeId.value !in r.rt.frames && r.rt == StopRendering(s, s.activeId.value).rt
    ensures Yields(s, id) && s.activeId.value in s.reg.overlays ==> s.activeId.value in r.disp.overlayShown
    ensures Yields(s, id) && s.activeId.value in s.reg.renderers ==> s.activeId.value !in r.disp.canvasHidden
    ensures (id in r.disp.overlayShown <==> id in s.disp.overlayShown) && (id in r.disp.canvasHidden <==> id in s.disp.canvasHidden)
    ensures r.disp.attached == s.disp.attached
    ensures r.disp.hovered == s.disp.hovered && r.reg == s.reg && r.wiring == s.wiring
    ensures r == s.(disp := r.disp, rt := r.rt)
  {
    if Yields(s, id) then
      SetVisibility(StopRendering(s, s.activeId.value), s.activeId.value, false)
    else s
  }

  /** The `startRendering` hover handler of `setupHoverHandlers`: after
      `HoverYield`, the id becomes active and hovered, is shown, its canvas
      re-attached, and a centre loop starts. */
  function HoverStart(s: State, id: string, dom: Dom): (r: State)
    ensures id !in s.wiring.hoverWired ==> r == s
    ensures id in s.wiring.hoverWired ==> r.activeId == Some(id) && Hovered(r, id)
    ensures id in s.wiring.hoverWired && RenderReady(s, id) ==> LiveLoop(r, id)
    ensures id in s.wiring.hoverWired && Yields(s, id) ==> s.activeId.value !in r.rt.frames
    ensures id in s.wiring.hoverWired && Yields(s, id) && s.activeId.value in s.reg.overlays ==>
      s.activeId.value in r.disp.overlayShown
    ensures id in s.wiring.hoverWired && id in s.reg.containers && id in s.reg.renderers ==> id !in r.disp.canvasHidden
    ensures id in s.wiring.hoverWired && id in s.reg.containers && id in s.reg.overlays ==> id !in r.disp.overlayShown
    ensures id in s.wiring.hoverWired && id in s.reg.canvases ==> id in r.disp.attached
    ensures forall x | x in s.rt.frames && x != id && !(Yields(s, id) && x == s.activeId.value) ::
      x in r.rt.frames && r.rt.frames[x] == s.rt.frames[x]
    ensures forall x | x != id :: Hovered(r, x) == Hovered(s, x)
    ensures r.reg == s.reg && r.wiring == s.wiring && r.order == s.order && r.captured == s.captured
  {
    if id !in s.wiring.hoverWired then s
    else
      var s1 := HoverYield(s, id);
      var s2 := SetVisibility(s1.(activeId := Some(id), disp := s1.disp.(hovered := s1.disp.hovered[id := true])), id, true);
      var s3 := if id in s2.reg.canvases then s2.(disp := s2.disp.(attached := s2.disp.attached + {id})) else s2;
      StartRendering(s3, id, dom)
  }

  /** The `stopRendering` hover handler of `setupHoverHandlers`: the hover
      flag drops and the id stops being active; only when the panorama is not
      centered does it stop rendering, show its overlay and detach its canvas. */
  function HoverStop(s: State, id: string, dom: Dom): (r: State)
    ensures id !in s.wiring.hoverWired ==> r == s
    ensures id in s.wiring.hoverWired ==>
      id in r.disp.hovered && !r.disp.hovered[id]
      && r.activeId == (if s.activeId == Some(id) then None else s.activeId)
    ensures id in s.wiring.hoverWired && IsPanoramaCentered(s, id, dom) ==>
      r.rt == s.rt && r.disp.attached == s.disp.attached
    ensures id in s.wiring.hoverWired && !IsPanoramaCentered(s, id, dom) ==>
      id !in r.rt.frames && (id in s.reg.canvases ==> id !in r.disp.attached)
    ensures (id in s.wiring.hoverWired && !IsPanoramaCentered(s, id, dom) && id in s.reg.containers
             && id in s.reg.overlays) ==> id in r.disp.overlayShown
    ensures forall x | x in s.rt.frames && x != id :: x in r.rt.frames && r.rt.frames[x] == s.rt.frames[x]
    ensures forall x | x != id :: Hovered(r, x) == Hovered(s, x)
    ensures r.reg == s.reg && r.wiring == s.wiring && r.order == s.order && r.captured == s.captured
  {
    if id !in s.wiring.hoverWired then s
    else
      var s1 := s.(disp := s.disp.(hovered := s.disp.hovered[id := false]),
                   activeId := if s.activeId == Some(id) then None else s.activeId);
      if IsPanoramaCentered(s1, id, dom) then s1
      else
        var s2 := SetVisibility(StopRendering(s1, id), id, false);
        s2.(disp := s2.disp.(attached := if id in s2.reg.canvases then s2.disp.attached - {id} else s2.disp.attached))
  }

  /** The centre observer reports an entry for `id`: when it is intersecting
      at a ratio of at least 0.8, the id is not already active and has a
      container, a synthetic `dragstart` is dispatched on the container. Only
      the desktop wiring listens for `dragstart`. */
  function CenterEntry(s: State, id: string, centeredEntry: bool, dom: Dom): (r: State)
    ensures !(s.wiring.hasCenterObserver && id in s.wiring.centerObserved && centeredEntry) ==> r == s
    ensures s.activeId == Some(id) || id !in s.reg.containers ==> r == s
    ensures !(id in s.wiring.hoverWired && s.wiring.hoverWired[id]) ==> r == s
    ensures (s.wiring.hasCenterObserver && id in s.wiring.centerObserved && centeredEntry && s.activeId != Some(id)
             && id in s.reg.containers && id in s.wiring.hoverWired && s.wiring.hoverWired[id]) ==>
      r == HoverStart(s, id, dom)
  {
    if s.wiring.hasCenterObserver && id in s.wiring.centerObserved && centeredEntry && s.activeId != Some(id)
       && id in s.reg.containers && id in s.wiring.hoverWired && s.wiring.hoverWired[id]
    then HoverStart(s, id, dom)
    else s
  }

  // ----------------------------------------------------------------- capture

  /** `setLoadingState`: the id's loading cell (created if absent) holds `v`. */
  function SetLoadingState(s: State, id: string, v: bool): (r: State)
    ensures id in r.loadingStates && r.loadingStates[id] == v
    ensures r.loadingStates - {id} == s.loadingStates - {id}
    ensures r == s.(loadingStates := r.loadingStates)
  {
    s.(loadingStates := s.loadingStates[id := v])
  }

  /** `getLoadingState`: the existing cell's value, or a new cell holding
      false when there is none. */
  function GetLoadingState(s: State, id: string): (r: (State, bool))
    ensures id in s.loadingStates ==> r == (s, s.loadingStates[id])
    ensures id !in s.loadingStates ==> !r.1 && r.0 == s.(loadingStates := s.loadingStates[id := false])
    ensures id in r.0.loadingStates && r.0.loadingStates[id] == r.1
  {
    if id in s.loadingStates then (s, s.loadingStates[id])
    else (s.(loadingStates := s.loadingStates[id := false]), false)
  }

  /** The components `takeScreenshot` needs. */
  predicate ScreenshotReady(s: State, id: string) {
    s.browser && id in s.reg.renderers && id in s.reg.scenes && id in s.reg.cameras
    && id in s.reg.containers && id in s.reg.canvases
  }

  /** `takeScreenshot`: with renderer, scene, camera, container and canvas the
      canvas is attached and shown and an image is produced (the second
      component); otherwise the result is the empty string. */
  function TakeScreenshot(s: State, id: string): (r: (State, bool))
    ensures r.1 <==> ScreenshotReady(s, id)
    ensures !r.1 ==> r.0 == s
    ensures r.1 ==> r.0 == s.(disp := s.disp.(attached := s.disp.attached + {id},
                                               canvasHidden := s.disp.canvasHidden - {id}))
  {
    if ScreenshotReady(s, id)
    then (s.(disp := s.disp.(attached := s.disp.attached + {id}, canvasHidden := s.disp.canvasHidden - {id})), true)
    else (s, false)
  }

  /** The targets of `captureNextThreeScreenshots`: none when the active id
      is falsy or not in the order; otherwise the neighbour window of its
      first position, which holds at most eight registered ids and, when no
      id is registered twice, never the active one. */
  function CaptureTargets(s: State): (r: Option<seq<string>>)
    ensures r.None? <==> !Truthy(s.activeId) || s.activeId.value !in s.order
    ensures r.Some? ==> r.value == NeighbourWindow(s.order, IndexOf(s.order, s.activeId.value))
    ensures r.Some? ==> |r.value| <= 8 && forall x | x in r.value :: x in s.order
    ensures r.Some? && (forall a, b :: 0 <= a < b < |s.order| ==> s.order[a] != s.order[b]) ==>
      s.activeId.value !in r.value
  {
    if !Truthy(s.activeId) then None
    else
      var i := IndexOf(s.order, s.activeId.value);
      if i < 0 then None
      else
        ActiveIdExcluded(s.order, i);
        var w := NeighbourWindow(s.order, i);
        assert forall x | x in w :: x in s.order by {
          forall x | x in w ensures x in s.order {
            WindowMembers(s.order, i, x);
          }
        }
        Some(w)
  }

  /** What a capture leaves alone: everything but the loading overlays, the
      `isVisible` flags, the display sets, the captured set, the loading
      cells and the handle counter. */
  predicate CaptureFrame(s: State, r: State) {
    r.order == s.order && r.activeId == s.activeId && r.browser == s.browser
    && r.reg == s.reg.(loadingOverlays := r.reg.loadingOverlays)
    && r.disp.hovered == s.disp.hovered && r.wiring == s.wiring
    && r.rt == s.rt.(nextHandle := r.rt.nextHandle) && r.rt.nextHandle >= s.rt.nextHandle
  }

  /** One iteration of the capture loop. An id already captured, or without
      renderer, scene, camera or overlay, is skipped. Without a loading
      overlay or a container, the detached placeholder has no last child and
      the loop throws (the second component). Otherwise the loading overlay
      is created if needed, the loading cell goes true, the screenshot is
      taken, the overlay is shown, the id is captured, and the loading cell
      goes back to false. */
  function CaptureOne(s: State, pid: string, dom: Dom): (r: (State, bool))
    ensures pid in s.captured || !CaptureReady(s, pid) ==> r == (s, false)
    ensures r.1 <==> pid !in s.captured && CaptureReady(s, pid)
                     && pid !in s.reg.loadingOverlays && pid !in s.reg.containers
    ensures r.1 ==> r.0 == s
    ensures pid !in s.captured && CaptureReady(s, pid) && !r.1 ==>
      pid in r.0.captured && pid in r.0.loadingStates && !r.0.loadingStates[pid]
      && pid in r.0.reg.loadingOverlays && pid in r.0.disp.overlayShown
    ensures r.0.captured == s.captured || r.0.captured == s.captured + {pid}
    ensures r.0.loadingStates - {pid} == s.loadingStates - {pid}
    ensures s.reg.loadingOverlays.Keys <= r.0.reg.loadingOverlays.Keys
    ensures CaptureFrame(s, r.0)
  {
    if pid in s.captured || !CaptureReady(s, pid) then (s, false)
    else if pid !in s.reg.loadingOverlays && pid !in s.reg.containers then (s, true)
    else
      var s1 :=
        if pid in s.reg.loadingOverlays then s
        else s.(reg := s.reg.(loadingOverlays := s.reg.loadingOverlays[pid := Token(s.rt.nextHandle)]),
                disp := s.disp.(visible := s.disp.visible[pid := false]),
                rt := s.rt.(nextHandle := s.rt.nextHandle + 1));
      var s2 := SetLoadingState(s1, pid, true);
      var s3 := TakeScreenshot(s2, pid).0;
      var s4 := s3.(disp := s3.disp.(overlayShown := s3.disp.overlayShown + {pid}), captured := s3.captured + {pid});
      (SetLoadingState(s4, pid, false), false)
  }

  /** The capture loop over `ts`, stopping at the first throw; the second
      component says whether it threw. */
  function CaptureEach(s: State, ts: seq<string>, dom: Dom): (r: (State, bool))
    ensures |ts| == 0 ==> r == (s, false)
    decreases |ts|
  {
    if |ts| == 0 then (s, false)
    else
      var (s1, thrown) := CaptureOne(s, ts[0], dom);
      if thrown then (s1, true) else CaptureEach(s1, ts[1..], dom)
  }

  /** The capture loop only adds to the captured set, leaves everything
      outside `CaptureFrame` alone, and keeps the loading cells of ids outside
      `ts` and of ids captured before. */
  lemma {:induction false} CaptureEachFrame(s: State, ts: seq<string>, dom: Dom)
    ensures var r := CaptureEach(s, ts, dom).0;
      s.captured <= r.captured && CaptureFrame(s, r)
      && (forall x | x in s.loadingStates && (x !in ts || x in s.captured) ::
            x in r.loadingStates && r.loadingStates[x] == s.loadingStates[x])
    decreases |ts|
  {
    if |ts| > 0 {
      var (s1, thrown) := CaptureOne(s, ts[0], dom);
      if !thrown {
        CaptureEachFrame(s1, ts[1..], dom);
        var r := CaptureEach(s1, ts[1..], dom).0;
        forall x | x in s.loadingStates && (x !in ts || x in s.captured)
          ensures x in r.loadingStates && r.loadingStates[x] == s.loadingStates[x]
        {
          assert x != ts[0] || x in s.captured;
          assert x in s1.loadingStates && s1.loadingStates[x] == s.loadingStates[x];
          assert x !in ts[1..] || x in s1.captured;
        }
      }
    }
  }

  /** Every id the capture loop adds is one of `ts` that had all components,
      and its loading cell ends false. */
  lemma {:induction false} CaptureEachAdds(s: State, ts: seq<string>, dom: Dom)
    ensures var r := CaptureEach(s, ts, dom).0;
      forall x | x in r.captured - s.captured ::
        x in ts && CaptureReady(s, x) && x in r.loadingStates && !r.loadingStates[x]
    decreases |ts|
  {
    if |ts| > 0 {
      var (s1, thrown) := CaptureOne(s, ts[0], dom);
      if !thrown {
        CaptureEachAdds(s1, ts[1..], dom);
        CaptureEachFrame(s1, ts[1..], dom);
        var r := CaptureEach(s1, ts[1..], dom).0;
        forall x | x in r.captured - s.captured
          ensures x in ts && CaptureReady(s, x) && x in r.loadingStates && !r.loadingStates[x]
        {
          if x in s1.captured {
            assert x == ts[0];
          } else {
            assert x in ts[1..];
          }
        }
      }
    }
  }

  /** When the capture loop does not throw, every id of `ts` that had all
      components ends captured. */
  lemma {:induction false} CaptureEachCompletes(s: State, ts: seq<string>, dom: Dom)
    ensures var r := CaptureEach(s, ts, dom);
      !r.1 ==> forall x | x in ts && CaptureReady(s, x) :: x in r.0.captured
    decreases |ts|
  {
    if |ts| > 0 {
      var (s1, thrown) := CaptureOne(s, ts[0], dom);
      if !thrown {
        CaptureEachCompletes(s1, ts[1..], dom);
        CaptureEachFrame(s1, ts[1..], dom);
        var r := CaptureEach(s1, ts[1..], dom);
        if !r.1 {
          forall x | x in ts && CaptureReady(s, x) ensures x in r.0.captured {
            if x != ts[0] {
              assert x in ts[1..];
              assert CaptureReady(s1, x);
            }
          }
        }
      }
    }
  }

  /** The capture loop does not throw when every target still to capture
      that has its components also has a loading overlay or a container. */
  lemma {:induction false} CaptureEachNoThrow(s: State, ts: seq<string>, dom: Dom)
    ensures (forall x | x in ts && CaptureReady(s, x) && x !in s.captured ::
               x in s.reg.loadingOverlays || x in s.reg.containers)
            ==> !CaptureEach(s, ts, dom).1
    decreases |ts|
  {
    if |ts| > 0 && forall x | x in ts && CaptureReady(s, x) && x !in s.captured ::
                    x in s.reg.loadingOverlays || x in s.reg.containers {
      var (s1, thrown) := CaptureOne(s, ts[0], dom);
      assert !thrown;
      forall x | x in ts[1..] && CaptureReady(s1, x) && x !in s1.captured
        ensures x in s1.reg.loadingOverlays || x in s1.reg.containers
      {
        assert x in ts && CaptureReady(s, x) && x !in s.captured;
      }
      CaptureEachNoThrow(s1, ts[1..], dom);
    }
  }

  /** `captureNextThreeScreenshots`. */
  function Capture(s: State, dom: Dom): (r: State)
    ensures CaptureTargets(s).None? ==> r == s
    ensures s.captured <= r.captured
    ensures forall x | x in r.captured - s.captured ::
      CaptureTargets(s).Some? && x in CaptureTargets(s).value && CaptureReady(s, x)
      && x in r.loadingStates && !r.loadingStates[x]
    ensures CaptureTargets(s).Some?
            && (forall x | x in CaptureTargets(s).value && CaptureReady(s, x) && x !in s.captured ::
                  x in s.reg.loadingOverlays || x in s.reg.containers)
            ==> forall x | x in CaptureTargets(s).value && CaptureReady(s, x) :: x in r.captured
    ensures CaptureFrame(s, r)
  {
    match CaptureTargets(s)
    case None => s
    case Some(ts) =>
      CaptureEachFrame(s, ts, dom);
      CaptureEachAdds(s, ts, dom);
      CaptureEachNoThrow(s, ts, dom);
      CaptureEachCompletes(s, ts, dom);
      CaptureEach(s, ts, dom).0
  }

  /** A timer fires: the first-activation timer of `ngOnInit` activates the
      first registered panorama, if any; the capture timer of
      `activatePanorama` captures unless its id is already captured. */
  function TimerFired(s: State, t: Token, dom: Dom): (r: State)
    ensures t !in s.rt.timers ==> r == s
    ensures t in s.rt.timers && s.rt.timers[t] == FirstActivation && |s.order| > 0 ==>
      r.activeId == Some(s.order[0])
      && r == Activate(s.(rt := s.rt.(timers := s.rt.timers - {t})), s.order[0], dom)
    ensures t in s.rt.timers && s.rt.timers[t] == FirstActivation && |s.order| == 0 ==>
      r == s.(rt := s.rt.(timers := s.rt.timers - {t}))
    ensures t in s.rt.timers && s.rt.timers[t].CaptureAfterActivation? && s.rt.timers[t].id !in s.captured ==>
      r == Capture(s.(rt := s.rt.(timers := s.rt.timers - {t})), dom)
    ensures t in s.rt.timers && s.rt.timers[t].CaptureAfterActivation? && s.rt.timers[t].id in s.captured ==>
      r == s.(rt := s.rt.(timers := s.rt.timers - {t}))
  {
    if t !in s.rt.timers then s
    else
      var s1 := s.(rt := s.rt.(timers := s.rt.timers - {t}));
      match s.rt.timers[t]
      case FirstActivation => if |s1.order| > 0 then Activate(s1, s1.order[0], dom) else s1
      case CaptureAfterActivation(id) =>
        if id !in s1.captured then Capture(s1, dom) else s1
  }

  // ----------------------------------------------------------------- destroy

  /** The objects `destroyPanorama` disposes: the current texture and the
      renderer. */
  function DisposedBy(s: State, id: string): multiset<Token> {
    (if id in s.reg.textures then multiset{s.reg.textures[id]} else multiset{})
    + (if id in s.reg.renderers then multiset{s.reg.renderers[id]} else multiset{})
  }

  /** Every registry with `id` removed. */
  function Unregister(g: Registry, id: string): Registry {
    Registry(g.scenes - {id}, g.cameras - {id}, g.renderers - {id}, g.controls - {id},
             g.containers - {id}, g.canvases - {id}, g.overlays - {id}, g.loadingOverlays - {id},
             g.textures - {id}, g.observers - {id})
  }

  /** The display part of `destroyPanorama`: the id stops being active and
      being captured, its container is unobserved, its flags go, and its
      canvas and overlay leave the document. */
  function Detach(s: State, id: string): (r: State)
    ensures r.activeId == (if s.activeId == Some(id) then None else s.activeId)
    ensures r.captured == s.captured - {id}
    ensures r.disp.hovered == s.disp.hovered - {id} && r.disp.visible == s.disp.visible - {id}
    ensures r.reg == s.reg && r.rt == s.rt && r.order == s.order && r.loadingStates == s.loadingStates
    ensures r.wiring.hoverWired == s.wiring.hoverWired && r.wiring.hasCenterObserver == s.wiring.hasCenterObserver
    ensures s.wiring.hasCenterObserver && id in s.reg.containers ==> id !in r.wiring.centerObserved
    ensures id in s.reg.canvases ==> id !in r.disp.attached && id !in r.disp.canvasHidden
    ensures id in s.reg.overlays ==> id !in r.disp.overlayShown
  {
    var d := s.disp;
    s.(activeId := if s.activeId == Some(id) then None else s.activeId,
       captured := s.captured - {id},
       wiring := s.wiring.(centerObserved :=
         if s.wiring.hasCenterObserver && id in s.reg.containers then s.wiring.centerObserved - {id}
         else s.wiring.centerObserved),
       disp := Display(d.hovered - {id}, d.visible - {id},
                       if id in s.reg.canvases then d.attached - {id} else d.attached,
                       if id in s.reg.canvases then d.canvasHidden - {id} else d.canvasHidden,
                       if id in s.reg.overlays then d.overlayShown - {id} else d.overlayShown))
  }

  /** The object part of `destroyPanorama`: the high-quality observer is
      disconnected, texture and renderer are disposed, and the id leaves
      every registry. */
  function Dispose(s: State, id: string): (r: State)
    ensures r.reg == Unregister(s.reg, id)
    ensures r.rt.disposed == s.rt.disposed + DisposedBy(s, id)
    ensures r.rt.frames == s.rt.frames && r.rt.pendingLoads == s.rt.pendingLoads
    ensures r.rt.nearObservers ==
      if id in s.reg.observers then s.rt.nearObservers - {s.reg.observers[id]} else s.rt.nearObservers
    ensures r.disp == s.disp && r.activeId == s.activeId && r.captured == s.captured
            && r.order == s.order && r.loadingStates == s.loadingStates && r.wiring == s.wiring
    ensures r.rt == s.rt.(nearObservers := r.rt.nearObservers, disposed := r.rt.disposed)
  {
    s.(reg := Unregister(s.reg, id),
       rt := s.rt.(nearObservers := if id in s.reg.observers then s.rt.nearObservers - {s.reg.observers[id]}
                                    else s.rt.nearObservers,
                   disposed := s.rt.disposed + DisposedBy(s, id)))
  }

  /** `destroyPanorama`: in the browser, `StopRendering`, `Detach` and
      `Dispose`. The order, the loading cells, the hover listeners and the
      texture requests in flight stay. */
  function Destroy(s: State, id: string): (r: State)
    ensures !s.browser ==> r == s
    ensures s.browser ==>
      r.reg == Unregister(s.reg, id) && r.captured == s.captured - {id}
      && r.disp.hovered == s.disp.hovered - {id} && r.disp.visible == s.disp.visible - {id}
      && r.rt.frames == s.rt.frames - {id}
      && r.activeId == (if s.activeId == Some(id) then None else s.activeId)
    ensures s.browser ==> r.rt.disposed == s.rt.disposed + DisposedBy(s, id)
    ensures s.browser && id in s.rt.frames ==> s.rt.frames[id] !in r.rt.scheduled
    ensures s.browser ==>
      r.rt.scheduled == (if id in s.rt.frames then s.rt.scheduled - {s.rt.frames[id]} else s.rt.scheduled)
    ensures r.rt == s.rt.(frames := r.rt.frames, scheduled := r.rt.scheduled,
                          nearObservers := r.rt.nearObservers, disposed := r.rt.disposed)
    ensures r.wiring.hoverWired == s.wiring.hoverWired
    ensures s.browser && id in s.reg.observers ==> s.reg.observers[id] !in r.rt.nearObservers
    ensures s.browser && s.wiring.hasCenterObserver && id in s.reg.containers ==> id !in r.wiring.centerObserved
    ensures s.browser && id in s.reg.canvases ==> id !in r.disp.attached
    ensures s.browser && id in s.reg.overlays ==> id !in r.disp.overlayShown
    ensures r.order == s.order && r.loadingStates == s.loadingStates && r.rt.pendingLoads == s.rt.pendingLoads
  {
    if !s.browser then s else Dispose(Detach(StopRendering(s, id), id), id)
  }
}
