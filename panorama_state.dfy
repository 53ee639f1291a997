/** The state of `PanoramaService` (src/app/services/panorama.service.ts),
    as a value: the id-keyed registries of lines 15-33, plus the parts of the
    browser the service's callbacks observe (pending texture loads, the
    animation-frame queue, timers, observers, the scene graph). */
module PanoramaState {
  import opened Common

  const White: nat := 0xffffff
  const FallbackRed: nat := 0xff0000
  /** At most this many panoramas are prepared by `initializePanoramas`. */
  const InitialBatch: nat := 5

  /** What the DOM answers when the service asks: the elements found by
      `document.getElementById`, whether `isDesktop()` holds, which panoramas'
      texture images are `complete`, and which containers have an
      intersection ratio of at least 0.8 (`isPanoramaCentered`'s geometry). */
  datatype Dom = Dom(elements: map<string, Token>, desktop: bool,
                     complete: set<string>, centered: set<string>)

  /** A `MeshBasicMaterial`: its colour and its texture map. */
  datatype Material = Basic(color: nat, texture: Option<Token>)
  /** The inverted sphere a panorama is painted on. */
  datatype Mesh = Sphere(material: Material)

  /** The `animate` closure of `activatePanorama`/`setActivePanorama`
      (continues while hovered) or of `startRendering` (continues while
      hovered or centered). */
  datatype LoopKind = HoverLoop | CenterLoop
  datatype Loop = Loop(id: string, kind: LoopKind)

  /** A `textureLoader.load` in flight: the panorama, the scene its closure
      captured, and whether it is the high-quality image. */
  datatype Load = Load(id: string, scene: Token, isHigh: bool)

  /** The `setTimeout` callbacks of `ngOnInit` and `activatePanorama`. */
  datatype Timer = FirstActivation | CaptureAfterActivation(id: string)

  /** The id-keyed registries of lines 15-33 that hold objects. */
  datatype Registry = Registry(
    scenes: map<string, Token>,
    cameras: map<string, Token>,
    renderers: map<string, Token>,
    controls: map<string, Token>,
    containers: map<string, Token>,
    canvases: map<string, Token>,
    overlays: map<string, Token>,
    loadingOverlays: map<string, Token>,
    textures: map<string, Token>,
    observers: map<string, Token>)

  /** The per-id flags (`isHovered`, `isVisible`) and what the document shows. */
  datatype Display = Display(
    hovered: map<string, bool>,
    visible: map<string, bool>,
    /** ids whose canvas is a child of its container */
    attached: set<string>,
    /** ids whose canvas has `display: none` */
    canvasHidden: set<string>,
    /** ids whose "interact" overlay has `display: block` */
    overlayShown: set<string>)

  /** The observers and listeners the service has installed. */
  datatype Wiring = Wiring(
    hasCenterObserver: bool,
    centerObserved: set<string>,
    /** ids whose container carries the hover listeners; true for the
        desktop (drag) wiring, false for the mouse/touch wiring */
    hoverWired: map<string, bool>)

  /** The render and callback machinery: `animationFrames`, the requested
      frames and the loop each one continues, the timers, the connected
      high-quality observers and the load each one starts, the texture
      requests in flight, the scene graph, every `dispose()` call, and the
      next handle to issue. */
  datatype Runtime = Runtime(
    frames: map<string, Token>,
    scheduled: map<Token, Loop>,
    timers: map<Token, Timer>,
    nearObservers: map<Token, Load>,
    pendingLoads: set<Load>,
    sceneChildren: map<Token, seq<Mesh>>,
    disposed: multiset<Token>,
    nextHandle: nat)

  datatype State = State(
    browser: bool,
    reg: Registry,
    disp: Display,
    wiring: Wiring,
    rt: Runtime,
    activeId: Option<string>,
    order: seq<string>,
    captured: set<string>,
    loadingStates: map<string, bool>)

  /** The service as constructed (all registries empty). */
  function Initial(browser: bool): (s: State)
    ensures s.browser == browser && s.order == [] && s.activeId == None
    ensures Valid(s)
  {
    State(browser,
          Registry(map[], map[], map[], map[], map[], map[], map[], map[], map[], map[]),
          Display(map[], map[], {}, {}, {}),
          Wiring(false, {}, map[]),
          Runtime(map[], map[], map[], map[], {}, map[], multiset{}, 0),
          None, [], {}, map[])
  }

  /** `this.isHovered.get(id)` is truthy. */
  predicate Hovered(s: State, id: string) {
    id in s.disp.hovered && s.disp.hovered[id]
  }

  /** JavaScript truthiness of `activePanoramaId` (null and "" are falsy). */
  predicate Truthy(a: Option<string>) {
    a.Some? && a.value != ""
  }

  /** The children of a scene object. */
  function Children(s: State, scene: Token): seq<Mesh> {
    if scene in s.rt.sceneChildren then s.rt.sceneChildren[scene] else []
  }

  /** A loop is live for `id` when its latest frame is still requested. */
  predicate LiveLoop(s: State, id: string) {
    id in s.rt.frames && s.rt.frames[id] in s.rt.scheduled
  }

  /** The components `activatePanorama`/`setActivePanorama` check. */
  predicate ActivationReady(s: State, id: string) {
    id in s.reg.containers && id in s.reg.canvases && id in s.reg.scenes && id in s.reg.cameras
    && id in s.reg.renderers && id in s.reg.controls
  }

  /** The components `startRendering` checks. */
  predicate RenderReady(s: State, id: string) {
    id in s.reg.renderers && id in s.reg.scenes && id in s.reg.cameras && id in s.reg.controls
  }

  /** The components the capture loop checks for each target. */
  predicate CaptureReady(s: State, id: string) {
    id in s.reg.renderers && id in s.reg.scenes && id in s.reg.cameras && id in s.reg.overlays
  }

  /** The components `initializePanoramas` checks. */
  predicate InitReady(s: State, id: string) {
    id in s.reg.renderers && id in s.reg.scenes && id in s.reg.cameras && id in s.reg.canvases && id in s.reg.textures
  }

  /** `isPanoramaCentered`: false off the browser or without a container,
      otherwise the DOM geometry's verdict; nothing else of the state counts. */
  function IsPanoramaCentered(s: State, id: string, dom: Dom): (r: bool)
    ensures !s.browser || id !in s.reg.containers ==> !r
    ensures s.browser && id in s.reg.containers ==> (r <==> id in dom.centered)
  {
    s.browser && id in s.reg.containers && id in dom.centered
  }

  /** Only the platform flag and the container registry decide, so the
      hover flags, the frames and the active id do not. */
  lemma CenteredDependsOnContainer(s: State, t: State, id: string, dom: Dom)
    requires s.browser == t.browser && (id in s.reg.containers <==> id in t.reg.containers)
    ensures IsPanoramaCentered(s, id, dom) == IsPanoramaCentered(t, id, dom)
  {
  }

  /** Whether an `animate` closure of the given kind requests another frame. */
  predicate Continues(s: State, loop: Loop, dom: Dom) {
    Hovered(s, loop.id) || (loop.kind == CenterLoop && IsPanoramaCentered(s, loop.id, dom))
  }

  /** Every handle held in the frame queue, the timers, the scene graph, the
      observers and the texture requests was issued before `nextHandle`, so
      the next one issued is fresh. */
  predicate Valid(s: State) {
    RuntimeValid(s.rt)
  }

  predicate RuntimeValid(rt: Runtime) {
    && (forall t | t in rt.scheduled :: t.handle < rt.nextHandle)
    && (forall t | t in rt.timers :: t.handle < rt.nextHandle)
    && (forall t | t in rt.sceneChildren :: t.handle < rt.nextHandle)
    && (forall t | t in rt.nearObservers :: t.handle < rt.nextHandle && rt.nearObservers[t].scene.handle < rt.nextHandle)
    && (forall l | l in rt.pendingLoads :: l.scene.handle < rt.nextHandle)
  }
}
