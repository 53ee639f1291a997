/** The invariant every operation of `PanoramaService` keeps: handles are
    fresh when issued, and `animationFrames` holds, for each id, a frame that
    is still requested and whose loop renders that id, so `stopRendering`
    always cancels a live request of the right panorama. */
module PanoramaInvariant {
  import opened Common
  import opened PanoramaState
  import opened PanoramaOps

  /** Each id's latest frame is still requested, by a loop for that id. */
  predicate FramesLive(s: State) {
    forall x | x in s.rt.frames :: s.rt.frames[x] in s.rt.scheduled && s.rt.scheduled[s.rt.frames[x]].id == x
  }

  predicate Inv(s: State) {
    Valid(s) && FramesLive(s)
  }

  lemma InitialInv(browser: bool)
    ensures Inv(Initial(browser))
  {
  }

  /** A state whose runtime is that of an `Inv` state, bar a larger handle
      counter, is `Inv` too. */
  lemma RuntimeGrowsInv(s: State, r: State)
    requires Inv(s)
    requires r.rt == s.rt.(nextHandle := r.rt.nextHandle) && r.rt.nextHandle >= s.rt.nextHandle
    ensures Inv(r)
  {
  }

  /** The invariant speaks of the runtime only. */
  lemma SameRuntimeInv(s: State, r: State)
    requires Inv(s) && r.rt == s.rt
    ensures Inv(r)
  {
  }

  // ------------------------------------------------------------ rendering

  lemma StopRenderingKeepsInv(s: State, id: string)
    requires Inv(s)
    ensures Inv(StopRendering(s, id))
  {
  }

  lemma SetVisibilityKeepsInv(s: State, id: string, showRenderer: bool)
    requires Inv(s)
    ensures Inv(SetVisibility(s, id, showRenderer))
  {
  }

  /** A loop for `loop.id` either stops or requests a fresh frame. The frame
      it ran from must be the id's latest or already consumed. */
  lemma AnimateKeepsInv(s: State, loop: Loop, dom: Dom)
    requires Valid(s)
    requires forall x | x in s.rt.frames && x != loop.id ::
      s.rt.frames[x] in s.rt.scheduled && s.rt.scheduled[s.rt.frames[x]].id == x
    ensures Inv(Animate(s, loop, dom))
  {
    var r := Animate(s, loop, dom);
    if Continues(s, loop, dom) {
      var h := Token(s.rt.nextHandle);
      assert h !in s.rt.scheduled;
      forall x | x in r.rt.frames
        ensures r.rt.frames[x] in r.rt.scheduled && r.rt.scheduled[r.rt.frames[x]].id == x
      {
        if x != loop.id {
          assert r.rt.frames[x] == s.rt.frames[x] && s.rt.frames[x] != h;
        }
      }
    }
  }

  lemma TickKeepsInv(s: State, h: Token, dom: Dom)
    requires Inv(s)
    ensures Inv(Tick(s, h, dom))
  {
    if h in s.rt.scheduled {
      var loop := s.rt.scheduled[h];
      var s1 := s.(rt := s.rt.(scheduled := s.rt.scheduled - {h}));
      forall x | x in s1.rt.frames && x != loop.id
        ensures s1.rt.frames[x] in s1.rt.scheduled && s1.rt.scheduled[s1.rt.frames[x]].id == x
      {
        assert s.rt.frames[x] != h;
      }
      AnimateKeepsInv(s1, loop, dom);
    }
  }

  lemma StartRenderingKeepsInv(s: State, id: string, dom: Dom)
    requires Inv(s)
    ensures Inv(StartRendering(s, id, dom))
  {
    if RenderReady(s, id) {
      AnimateKeepsInv(s, Loop(id, CenterLoop), dom);
    }
  }

  // --------------------------------------------------------- registration

  lemma AddSceneKeepsInv(s: State, id: string)
    requires Inv(s)
    ensures Inv(AddScene(s, id)) && AddScene(s, id).reg.scenes[id].handle < AddScene(s, id).rt.nextHandle
  {
  }

  lemma AddContainerKeepsInv(s: State, id: string, container: Token, scene: Token)
    requires Inv(s) && id in s.reg.scenes && id in s.reg.cameras && scene.handle < s.rt.nextHandle
    ensures Inv(AddContainer(s, id, container, scene))
  {
  }

  lemma CreatePanoramaKeepsInv(s: State, id: string, dom: Dom)
    requires Inv(s)
    ensures Inv(CreatePanorama(s, id, dom))
  {
    if s.browser {
      AddSceneKeepsInv(s, id);
      var s1 := AddScene(s, id);
      if id in dom.elements {
        AddContainerKeepsInv(s1, id, dom.elements[id], s1.reg.scenes[id]);
      }
    }
  }

  lemma {:induction false} InitEachKeepsInv(s: State, ids: seq<string>, dom: Dom)
    requires Inv(s)
    ensures Inv(InitEach(s, ids, dom))
    decreases |ids|
  {
    if |ids| > 0 {
      var s1 := InitOne(s, ids[0], dom);
      assert Inv(s1) by {
        if InitReady(s, ids[0]) {
          var s0 := if ids[0] in dom.complete then s.(disp := s.disp.(canvasHidden := s.disp.canvasHidden - {ids[0]}))
                    else s.(disp := s.disp.(canvasHidden := s.disp.canvasHidden + {ids[0]}));
          StopRenderingKeepsInv(s0, ids[0]);
        }
      }
      InitEachKeepsInv(s1, ids[1..], dom);
    }
  }

  lemma InitializePanoramasKeepsInv(s: State, dom: Dom)
    requires Inv(s)
    ensures Inv(InitializePanoramas(s, dom))
  {
    if s.browser {
      InitEachKeepsInv(s, InitialIds(s), dom);
    }
  }

  /** Connecting a high-quality observer under a fresh handle keeps the
      invariant. */
  lemma ObserveNearKeepsInv(s: State, load: Load)
    requires Inv(s) && load.scene.handle < s.rt.nextHandle
    ensures Inv(s.(rt := s.rt.(nearObservers := s.rt.nearObservers[Token(s.rt.nextHandle) := load],
                               nextHandle := s.rt.nextHandle + 1)))
  {
  }

  lemma WireHighKeepsInv(s: State, id: string, scene: Token, dom: Dom)
    requires Inv(s) && scene.handle < s.rt.nextHandle
    ensures Inv(WireHigh(s, id, scene, dom))
  {
    var r := WireHigh(s, id, scene, dom);
    if id in dom.elements {
      ObserveNearKeepsInv(s, Load(id, scene, true));
      SameRuntimeInv(s.(rt := s.rt.(nearObservers := s.rt.nearObservers[Token(s.rt.nextHandle) := Load(id, scene, true)],
                                    nextHandle := s.rt.nextHandle + 1)), r);
    } else {
      SameRuntimeInv(s, r);
    }
  }

  lemma FinishCreateKeepsInv(s: State, id: string, scene: Token, dom: Dom)
    requires Inv(s) && scene.handle < s.rt.nextHandle
    ensures Inv(FinishCreate(s, id, scene, dom))
  {
    WireHighKeepsInv(s, id, scene, dom);
    var s1 := WireHigh(s, id, scene, dom);
    var s2 := SetVisibility(s1, id, false);
    if |s2.order| == InitialBatch {
      InitializePanoramasKeepsInv(s2, dom);
    }
  }

  // ------------------------------------------------------------- textures

  lemma TextureSettledKeepsInv(s: State, load: Load)
    requires Inv(s) && load in s.rt.pendingLoads
    ensures Inv(TextureSettled(s, load))
  {
    var r := TextureSettled(s, load);
    var kids := Retextured(Children(s, load.scene), load.id in s.reg.textures, Token(s.rt.nextHandle));
    var rt1 := s.rt.(pendingLoads := s.rt.pendingLoads - {load},
                     sceneChildren := s.rt.sceneChildren[load.scene := kids],
                     nextHandle := s.rt.nextHandle + 1);
    assert r.rt == rt1;
    assert Inv(s.(rt := rt1));
    SameRuntimeInv(s.(rt := rt1), r);
  }

  lemma TextureLoadedKeepsInv(s: State, load: Load, dom: Dom)
    requires Inv(s)
    ensures Inv(TextureLoaded(s, load, dom))
  {
    if load in s.rt.pendingLoads {
      var s1 := TextureSettled(s, load);
      TextureSettledKeepsInv(s, load);
      if !load.isHigh {
        FinishCreateKeepsInv(s1, load.id, load.scene, dom);
      }
    }
  }

  lemma TextureFailedKeepsInv(s: State, load: Load)
    requires Inv(s)
    ensures Inv(TextureFailed(s, load))
  {
  }

  lemma NearViewportKeepsInv(s: State, obs: Token, intersecting: bool)
    requires Inv(s)
    ensures Inv(NearViewport(s, obs, intersecting))
  {
  }

  // ----------------------------------------------------------- activation

  lemma SetActiveKeepsInv(s: State, id: string, dom: Dom)
    requires Inv(s)
    ensures Inv(SetActive(s, id, dom))
  {
    if s.browser && ActivationReady(s, id) {
      var s1 :=
        if Truthy(s.activeId) && s.activeId.value != id then
          var s0 := s.(disp := s.disp.(hovered := s.disp.hovered[s.activeId.value := false]));
          StopRenderingKeepsInv(s0, s.activeId.value);
          StopRendering(s0, s.activeId.value)
        else s;
      var s2 := s1.(activeId := Some(id),
                    disp := s1.disp.(hovered := s1.disp.hovered[id := true], attached := s1.disp.attached + {id}));
      AnimateKeepsInv(SetVisibility(s2, id, true), Loop(id, HoverLoop), dom);
    }
  }

  lemma ActivateKeepsInv(s: State, id: string, dom: Dom)
    requires Inv(s)
    ensures Inv(Activate(s, id, dom))
  {
    var s1 := s.(activeId := Some(id), disp := s.disp.(hovered := s.disp.hovered[id := true]));
    if ActivationReady(s1, id) {
      var s0 := SetVisibility(s1.(disp := s1.disp.(attached := s1.disp.attached + {id})), id, true);
      AnimateKeepsInv(s0, Loop(id, HoverLoop), dom);
    }
  }

  lemma NgOnInitKeepsInv(s: State)
    requires Inv(s)
    ensures Inv(NgOnInit(s))
  {
  }

  lemma HoverStartKeepsInv(s: State, id: string, dom: Dom)
    requires Inv(s)
    ensures Inv(HoverStart(s, id, dom))
  {
    if id in s.wiring.hoverWired {
      var s1 := HoverYield(s, id);
      assert Inv(s1) by {
        if Truthy(s.activeId) && s.activeId.value != id && s.activeId.value in s.reg.containers {
          StopRenderingKeepsInv(s, s.activeId.value);
        }
      }
      var s2 := SetVisibility(s1.(activeId := Some(id), disp := s1.disp.(hovered := s1.disp.hovered[id := true])), id, true);
      var s3 := if id in s2.reg.canvases then s2.(disp := s2.disp.(attached := s2.disp.attached + {id})) else s2;
      StartRenderingKeepsInv(s3, id, dom);
    }
  }

  lemma HoverStopKeepsInv(s: State, id: string, dom: Dom)
    requires Inv(s)
    ensures Inv(HoverStop(s, id, dom))
  {
    if id in s.wiring.hoverWired {
      var s1 := s.(disp := s.disp.(hovered := s.disp.hovered[id := false]),
                   activeId := if s.activeId == Some(id) then None else s.activeId);
      if !IsPanoramaCentered(s1, id, dom) {
        StopRenderingKeepsInv(s1, id);
        var s2 := SetVisibility(StopRendering(s1, id), id, false);
        assert Inv(s2);
      }
    }
  }

  lemma CenterEntryKeepsInv(s: State, id: string, centeredEntry: bool, dom: Dom)
    requires Inv(s)
    ensures Inv(CenterEntry(s, id, centeredEntry, dom))
  {
    HoverStartKeepsInv(s, id, dom);
  }

  // -------------------------------------------------------------- capture

  lemma LoadingStateKeepsInv(s: State, id: string, v: bool)
    requires Inv(s)
    ensures Inv(SetLoadingState(s, id, v)) && Inv(GetLoadingState(s, id).0)
  {
  }

  lemma TakeScreenshotKeepsInv(s: State, id: string)
    requires Inv(s)
    ensures Inv(TakeScreenshot(s, id).0)
  {
  }

  lemma CaptureKeepsInv(s: State, dom: Dom)
    requires Inv(s)
    ensures Inv(Capture(s, dom))
  {
    RuntimeGrowsInv(s, Capture(s, dom));
  }

  /** Dropping a fired timer keeps the invariant. */
  lemma DropTimerKeepsInv(s: State, t: Token)
    requires Inv(s)
    ensures Inv(s.(rt := s.rt.(timers := s.rt.timers - {t})))
  {
  }

  lemma TimerFiredKeepsInv(s: State, t: Token, dom: Dom)
    requires Inv(s)
    ensures Inv(TimerFired(s, t, dom))
  {
    if t in s.rt.timers {
      var s1 := s.(rt := s.rt.(timers := s.rt.timers - {t}));
      DropTimerKeepsInv(s, t);
      match s.rt.timers[t]
      case FirstActivation =>
        if |s1.order| > 0 {
          ActivateKeepsInv(s1, s1.order[0], dom);
          assert TimerFired(s, t, dom) == Activate(s1, s1.order[0], dom);
        }
      case CaptureAfterActivation(id) =>
        if id !in s1.captured {
          CaptureKeepsInv(s1, dom);
          assert TimerFired(s, t, dom) == Capture(s1, dom);
        }
    }
  }

  // -------------------------------------------------------------- destroy

  lemma DestroyKeepsInv(s: State, id: string)
    requires Inv(s)
    ensures Inv(Destroy(s, id))
  {
    if s.browser {
      StopRenderingKeepsInv(s, id);
      var s1 := Detach(StopRendering(s, id), id);
      assert Inv(s1);
    }
  }
}
