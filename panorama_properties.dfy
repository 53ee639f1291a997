/** Properties of `PanoramaService` (src/app/services/panorama.service.ts)
    that relate several operations: what repeating an operation does, and
    what a sequence of browser events leads to. */
module PanoramaProperties {
  import opened Common
  import opened PanoramaState
  import opened PanoramaOps
  import opened PanoramaInvariant

  // -------------------------------------------------------------- destroy

  /** Destroying twice is destroying once: nothing is left to dispose, to
      unregister or to hide. */
  lemma DestroyIdempotent(s: State, id: string)
    ensures Destroy(Destroy(s, id), id) == Destroy(s, id)
    ensures s.browser ==> DisposedBy(Destroy(s, id), id) == multiset{}
  {
    if s.browser {
      var r := Destroy(s, id);
      assert DisposedBy(r, id) == multiset{};
      var r1 := StopRendering(r, id);
      assert r1 == r;
      assert Detach(r1, id) == r;
      assert Unregister(r.reg, id) == r.reg;
      assert Dispose(r, id) == r;
    }
  }

  // -------------------------------------------------------------- capture

  /** A second capture loop over the same targets, from where the first
      ended, changes nothing and ends the same way: every target is captured
      already, lacks a component, or throws again before anything changes. */
  lemma {:induction false} CaptureEachSettled(s: State, ts: seq<string>, dom: Dom)
    ensures var r := CaptureEach(s, ts, dom); CaptureEach(r.0, ts, dom) == r
    decreases |ts|
  {
    if |ts| > 0 {
      var (s1, thrown) := CaptureOne(s, ts[0], dom);
      if !thrown {
        CaptureEachSettled(s1, ts[1..], dom);
        CaptureEachFrame(s1, ts[1..], dom);
        var r := CaptureEach(s1, ts[1..], dom);
        assert ts[0] in r.0.captured || !CaptureReady(r.0, ts[0]);
        assert CaptureOne(r.0, ts[0], dom) == (r.0, false);
      }
    }
  }

  /** `captureNextThreeScreenshots` is idempotent. */
  lemma CaptureIdempotent(s: State, dom: Dom)
    ensures Capture(Capture(s, dom), dom) == Capture(s, dom)
  {
    var r := Capture(s, dom);
    assert CaptureTargets(r) == CaptureTargets(s);
    if CaptureTargets(s).Some? {
      CaptureEachSettled(s, CaptureTargets(s).value, dom);
    }
  }

  // -------------------------------------------------------- loading cells

  /** `getLoadingState` after `setLoadingState` reads the value set and
      changes nothing. */
  lemma GetAfterSet(s: State, id: string, v: bool)
    ensures GetLoadingState(SetLoadingState(s, id, v), id) == (SetLoadingState(s, id, v), v)
  {
  }

  /** A second `getLoadingState` finds the cell the first one created. */
  lemma GetLoadingStateIdempotent(s: State, id: string)
    ensures var (r, v) := GetLoadingState(s, id); GetLoadingState(r, id) == (r, v)
  {
  }

  // ------------------------------------------------------------- textures

  /** The high-quality observer fires once: a second entry finds it
      disconnected. */
  lemma NearViewportOnce(s: State, obs: Token, intersecting: bool)
    ensures NearViewport(NearViewport(s, obs, true), obs, intersecting) == NearViewport(s, obs, true)
  {
  }

  /** A settled request whose panorama had no texture adds exactly one mesh
      to its scene, whether it succeeded (a textured sphere) or failed (the
      red fallback); one that had a texture adds none. */
  lemma SettledSceneGrows(s: State, load: Load, dom: Dom)
    requires load in s.rt.pendingLoads
    ensures |Children(TextureLoaded(s, load, dom), load.scene)|
            == |Children(s, load.scene)| + (if load.id in s.reg.textures then 0 else 1)
    ensures |Children(TextureFailed(s, load), load.scene)|
            == |Children(s, load.scene)| + (if load.id in s.reg.textures then 0 else 1)
    ensures load.id !in s.reg.textures ==>
      |Children(TextureLoaded(s, load, dom), load.scene)| > 0 && |Children(TextureFailed(s, load), load.scene)| > 0
  {
  }

  /** A tiny texture that arrives after `destroyPanorama` is not ignored:
      the texture is registered again for the destroyed id, and a new
      high-quality observer is connected for it, although the id has no
      scene any more. */
  lemma LateTinyLoadAfterDestroy(s: State, load: Load, dom: Dom)
    requires s.browser && load in s.rt.pendingLoads && !load.isHigh && load.id in dom.elements
    ensures var r := TextureLoaded(Destroy(s, load.id), load, dom);
      load.id in r.reg.textures && NearObserverFor(r, load.id, Load(load.id, load.scene, true))
  {
  }

  /** A settling request changes the children of its own scene only. */
  lemma LoadTouchesOwnScene(s: State, load: Load, dom: Dom, other: Token)
    requires other != load.scene
    ensures Children(TextureLoaded(s, load, dom), other) == Children(s, other)
  {
    if load in s.rt.pendingLoads {
      var t := TextureSettled(s, load);
      assert Children(t, other) == Children(s, other);
    }
  }

  /** Re-creating a destroyed panorama gives it a scene no earlier request
      refers to, and keeps the requests in flight. */
  lemma RecreatedSceneFresh(s: State, load: Load, dom: Dom)
    requires Inv(s) && s.browser && load in s.rt.pendingLoads
    ensures var r1 := CreatePanorama(Destroy(s, load.id), load.id, dom);
      load.scene != r1.reg.scenes[load.id] && load in r1.rt.pendingLoads
      && Children(r1, r1.reg.scenes[load.id]) == []
  {
    var r0 := Destroy(s, load.id);
    assert r0.rt.nextHandle == s.rt.nextHandle;
    assert CreatePanorama(r0, load.id, dom).reg.scenes[load.id] == Token(r0.rt.nextHandle);
  }

  /** A panorama destroyed and created again gets a new, empty scene; a
      request of the old one that settles afterwards paints the old scene,
      so the new scene stays empty while the id's current texture is the late
      one. */
  lemma StaleLoadLeavesNewSceneEmpty(s: State, load: Load, dom: Dom)
    requires Inv(s) && s.browser && load in s.rt.pendingLoads
    ensures var r1 := CreatePanorama(Destroy(s, load.id), load.id, dom);
      var r2 := TextureLoaded(r1, load, dom);
      && load.scene != r1.reg.scenes[load.id]
      && Children(r2, r1.reg.scenes[load.id]) == []
      && load.id in r2.reg.textures
  {
    RecreatedSceneFresh(s, load, dom);
    var r1 := CreatePanorama(Destroy(s, load.id), load.id, dom);
    LoadTouchesOwnScene(r1, load, dom, r1.reg.scenes[load.id]);
  }

  /** A settling request leaves every other request in flight. */
  lemma TextureLoadedKeepsOtherLoads(s: State, load: Load, other: Load, dom: Dom)
    requires other != load && other in s.rt.pendingLoads
    ensures other in TextureLoaded(s, load, dom).rt.pendingLoads
  {
    if load in s.rt.pendingLoads {
      assert TextureSettled(s, load).rt.pendingLoads == s.rt.pendingLoads - {load};
    }
  }

  /** A success for a panorama that already has a current texture, on a
      scene without children, leaves that scene without children. */
  lemma RetextureEmptyScene(s: State, load: Load, dom: Dom)
    requires load in s.rt.pendingLoads && load.id in s.reg.textures && Children(s, load.scene) == []
    ensures Children(TextureLoaded(s, load, dom), load.scene) == []
  {
  }

  /** After the stale request has landed, the re-created panorama's own tiny
      image finds a current texture and so takes the "update the first mesh"
      branch; its scene has no mesh, so the new scene is never painted. */
  lemma RecreatedPanoramaNeverPainted(s: State, load: Load, dom: Dom)
    requires Inv(s) && s.browser && load in s.rt.pendingLoads && load.id in dom.elements
    ensures var r1 := CreatePanorama(Destroy(s, load.id), load.id, dom);
      var own := Load(load.id, r1.reg.scenes[load.id], false);
      && own in r1.rt.pendingLoads
      && Children(TextureLoaded(TextureLoaded(r1, load, dom), own, dom), own.scene) == []
  {
    StaleLoadLeavesNewSceneEmpty(s, load, dom);
    var r0 := Destroy(s, load.id);
    var r1 := CreatePanorama(r0, load.id, dom);
    var own := Load(load.id, r1.reg.scenes[load.id], false);
    assert own in r1.rt.pendingLoads;
    TextureLoadedKeepsOtherLoads(r1, load, own, dom);
    RetextureEmptyScene(TextureLoaded(r1, load, dom), own, dom);
  }

  // ---------------------------------------------------------- rendering

  /** A hover ends while its panorama is centered: the loop goes on and the
      active id is cleared. */
  lemma CenteredHoverStopKeepsLoop(s: State, a: string, dom: Dom)
    requires a in s.wiring.hoverWired && RenderReady(s, a) && IsPanoramaCentered(s, a, dom)
    ensures var r1 := HoverStop(HoverStart(s, a, dom), a, dom);
      LiveLoop(r1, a) && r1.activeId == None && RenderReady(r1, a)
  {
    var r0 := HoverStart(s, a, dom);
    assert IsPanoramaCentered(r0, a, dom);
  }

  /** One run of a loop for another id keeps `a`'s loop live. */
  lemma AnimateKeepsOtherLoop(s: State, loop: Loop, a: string, dom: Dom)
    requires a != loop.id && LiveLoop(s, a)
    ensures LiveLoop(Animate(s, loop, dom), a)
  {
  }

  /** A hover start with no truthy active id stops no other loop. */
  lemma HoverStartKeepsOtherLoop(s: State, a: string, b: string, dom: Dom)
    requires a != b && !Truthy(s.activeId) && LiveLoop(s, a)
    ensures LiveLoop(HoverStart(s, b, dom), a)
  {
    if b in s.wiring.hoverWired {
      assert HoverYield(s, b) == s;
      var s2 := SetVisibility(s.(activeId := Some(b), disp := s.disp.(hovered := s.disp.hovered[b := true])), b, true);
      var s3 := if b in s2.reg.canvases then s2.(disp := s2.disp.(attached := s2.disp.attached + {b})) else s2;
      assert s3.rt == s.rt;
      if RenderReady(s3, b) {
        AnimateKeepsOtherLoop(s3, Loop(b, CenterLoop), a, dom);
      }
    }
  }

  /** Rendering is not exclusive: when `a`'s hover ends while it is
      centered, its centre loop keeps running, and a hover on `b` then starts
      a second loop without stopping `a`'s, because the active id was
      cleared. */
  lemma TwoPanoramasRender(s: State, a: string, b: string, dom: Dom)
    requires a != b && a in s.wiring.hoverWired && b in s.wiring.hoverWired
    requires RenderReady(s, a) && RenderReady(s, b)
    requires IsPanoramaCentered(s, a, dom)
    ensures var r1 := HoverStop(HoverStart(s, a, dom), a, dom);
      var r2 := HoverStart(r1, b, dom);
      LiveLoop(r1, a) && r1.activeId == None && LiveLoop(r2, a) && LiveLoop(r2, b)
  {
    CenteredHoverStopKeepsLoop(s, a, dom);
    var r1 := HoverStop(HoverStart(s, a, dom), a, dom);
    HoverStartKeepsOtherLoop(r1, a, b, dom);
    assert r1.wiring == s.wiring.(hoverWired := r1.wiring.hoverWired) && b in r1.wiring.hoverWired;
    assert RenderReady(r1, b);
  }

  /** Starting a loop twice leaves two: `stopRendering` afterwards cancels
      only the latest frame, and the first loop's frame stays requested. */
  lemma DoubleStartOrphansLoop(s: State, id: string, dom: Dom)
    requires Inv(s) && RenderReady(s, id) && Hovered(s, id)
    ensures var r := StopRendering(StartRendering(StartRendering(s, id, dom), id, dom), id);
      id !in r.rt.frames && Token(s.rt.nextHandle) in r.rt.scheduled
      && r.rt.scheduled[Token(s.rt.nextHandle)] == Loop(id, CenterLoop)
  {
  }

  /** `activatePanorama` does not deactivate another panorama: its hover
      flag and its loop are left as they were. */
  lemma ActivateLeavesOthers(s: State, a: string, b: string, dom: Dom)
    requires Inv(s) && a != b && LiveLoop(s, a)
    ensures var r := Activate(s, b, dom);
      LiveLoop(r, a) && Hovered(r, a) == Hovered(s, a)
  {
    var r := Activate(s, b, dom);
    assert s.rt.frames[a].handle < s.rt.nextHandle;
  }

  // ------------------------------------------------- other panoramas' loops

  /** Under `Inv`, stopping one panorama cancels no other panorama's frame:
      each id's latest frame is requested by a loop for that id, so two ids
      never share one. */
  lemma StopRenderingLeavesOthers(s: State, id: string, a: string)
    requires Inv(s) && a != id && LiveLoop(s, a)
    ensures LiveLoop(StopRendering(s, id), a) && StopRendering(s, id).rt.frames[a] == s.rt.frames[a]
  {
    if id in s.rt.frames {
      assert s.rt.scheduled[s.rt.frames[id]].id == id;
    }
  }

  /** Under `Inv`, the frames `initializePanoramas` cancels belong to the
      ids it stops. */
  lemma NotCancelled(s: State, ids: seq<string>, a: string)
    requires Inv(s) && a in s.rt.frames && a !in InitStopped(s, ids)
    ensures s.rt.frames[a] !in InitCancelled(s, ids)
  {
  }

  /** The initialisation loop keeps the loop of every id it does not stop,
      the active one included. */
  lemma InitEachLeavesOthers(s: State, ids: seq<string>, dom: Dom, a: string)
    requires Inv(s) && LiveLoop(s, a) && (a in ids && InitReady(s, a) ==> s.activeId == Some(a))
    ensures LiveLoop(InitEach(s, ids, dom), a)
  {
    NotCancelled(s, ids, a);
  }

  /** `initializePanoramas` keeps the loop of the active id, and of every id
      outside the first five or without all its components. */
  lemma InitializePanoramasLeavesOthers(s: State, dom: Dom, a: string)
    requires Inv(s) && LiveLoop(s, a) && (a in InitialIds(s) && InitReady(s, a) ==> s.activeId == Some(a))
    ensures LiveLoop(InitializePanoramas(s, dom), a)
  {
    if s.browser {
      InitEachLeavesOthers(s, InitialIds(s), dom, a);
    }
  }

  /** The rest of `createPanorama` keeps every loop that the initialisation
      step, if it runs, does not stop. */
  lemma FinishCreateLeavesOthers(s: State, id: string, scene: Token, dom: Dom, a: string)
    requires Inv(s) && LiveLoop(s, a) && (a in InitialIds(s) && InitReady(s, a) ==> s.activeId == Some(a))
    ensures LiveLoop(FinishCreate(s, id, scene, dom), a)
  {
    NotCancelled(s, InitialIds(s), a);
  }

  /** `setActivePanorama` keeps the loop of every id but the new and the
      previous active one. */
  lemma SetActiveLeavesOthers(s: State, id: string, dom: Dom, a: string)
    requires Inv(s) && a != id && !(Truthy(s.activeId) && a == s.activeId.value) && LiveLoop(s, a)
    ensures LiveLoop(SetActive(s, id, dom), a)
  {
    if s.browser && ActivationReady(s, id) {
      var s1 :=
        if Truthy(s.activeId) && s.activeId.value != id then
          var s0 := s.(disp := s.disp.(hovered := s.disp.hovered[s.activeId.value := false]));
          StopRenderingLeavesOthers(s0, s.activeId.value, a);
          StopRendering(s0, s.activeId.value)
        else s;
      var s2 := s1.(activeId := Some(id),
                    disp := s1.disp.(hovered := s1.disp.hovered[id := true], attached := s1.disp.attached + {id}));
      AnimateKeepsOtherLoop(SetVisibility(s2, id, true), Loop(id, HoverLoop), a, dom);
    }
  }

  /** The yield step of a hover start keeps every loop but the yielding one. */
  lemma HoverYieldLeavesOthers(s: State, id: string, a: string)
    requires Inv(s) && LiveLoop(s, a) && !(Yields(s, id) && a == s.activeId.value)
    ensures LiveLoop(HoverYield(s, id), a)
  {
    if Yields(s, id) {
      StopRenderingLeavesOthers(s, s.activeId.value, a);
    }
  }

  /** A hover start keeps the loop of every id but its own and the yielding
      one. */
  lemma HoverStartLeavesOthers(s: State, id: string, dom: Dom, a: string)
    requires Inv(s) && a != id && LiveLoop(s, a) && !(Yields(s, id) && a == s.activeId.value)
    ensures LiveLoop(HoverStart(s, id, dom), a)
  {
    if id in s.wiring.hoverWired {
      HoverYieldLeavesOthers(s, id, a);
      var s1 := HoverYield(s, id);
      var s2 := SetVisibility(s1.(activeId := Some(id), disp := s1.disp.(hovered := s1.disp.hovered[id := true])), id, true);
      var s3 := if id in s2.reg.canvases then s2.(disp := s2.disp.(attached := s2.disp.attached + {id})) else s2;
      assert s3.rt == s1.rt;
      if RenderReady(s3, id) {
        AnimateKeepsOtherLoop(s3, Loop(id, CenterLoop), a, dom);
      }
    }
  }

  /** A hover end keeps every other panorama's loop. */
  lemma HoverStopLeavesOthers(s: State, id: string, dom: Dom, a: string)
    requires Inv(s) && a != id && LiveLoop(s, a)
    ensures LiveLoop(HoverStop(s, id, dom), a)
  {
    if id in s.wiring.hoverWired {
      var s1 := s.(disp := s.disp.(hovered := s.disp.hovered[id := false]),
                   activeId := if s.activeId == Some(id) then None else s.activeId);
      StopRenderingLeavesOthers(s1, id, a);
    }
  }

  /** `destroyPanorama` keeps every other panorama's loop and hover flag. */
  lemma DestroyLeavesOthers(s: State, id: string, a: string)
    requires Inv(s) && a != id && LiveLoop(s, a)
    ensures LiveLoop(Destroy(s, id), a) && Hovered(Destroy(s, id), a) == Hovered(s, a)
  {
    StopRenderingLeavesOthers(s, id, a);
  }
}
