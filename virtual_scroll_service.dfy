/** `VirtualScrollService` (src/app/services/virtual-scroll.service.ts):
    the state cell, the scroll element, the resize observer and the settle
    timers. DOM reads (`scrollTop`, `clientHeight`, bounding boxes) are
    parameters of the methods; timers and the resize observer are handles,
    and their callbacks are the methods `SettleFired` and `Resized`. */
module VirtualScrollServiceModel {
  import opened Common
  import opened ScrollWindow

  class VirtualScrollService {
    /** The `BehaviorSubject`'s current value. */
    var state: ScrollState
    var scrollElement: Option<Token>
    var resizeObserver: Option<Token>
    /** The handle of the last scroll-settle timer (never reset to null). */
    var scrollTimeout: Option<Token>
    /** Settle timers scheduled and neither fired nor cleared. */
    var pendingSettles: set<Token>
    /** The `top` of the last `scrollTo` request made on the scroll element. */
    var scrollRequest: Option<int>
    var nextHandle: nat

    constructor ()
      ensures state == InitialState
      ensures scrollElement == None && resizeObserver == None && scrollTimeout == None
      ensures pendingSettles == {} && scrollRequest == None
    {
      state := InitialState;
      scrollElement, resizeObserver, scrollTimeout := None, None, None;
      pendingSettles, scrollRequest := {}, None;
      nextHandle := 1;
    }

    /** A handle that no earlier call returned. */
    method NewHandle() returns (t: Token)
      modifies this`nextHandle
      ensures t == Token(old(nextHandle)) && nextHandle == old(nextHandle) + 1
    {
      t := Token(nextHandle);
      nextHandle := nextHandle + 1;
    }

    /** `isItemVisible` (lines 115-117): membership in the current window;
        once a window has been computed, exactly the indices between its ends. */
    function IsItemVisible(index: int): (r: bool)
      reads this
      ensures r <==> index in state.visibleItems
      ensures state.visibleItems == Range(state.startIndex, state.endIndex) ==>
        (r <==> state.startIndex <= index <= state.endIndex)
    {
      RangeMembers(state.startIndex, state.endIndex, index);
      index in state.visibleItems
    }

    /** `updateVisibleItems` (lines 217-246): the window for the element's
        `scrollTop` and `clientHeight` replaces the window fields of the state. */
    method UpdateVisibleItems(scrollTop: nat, clientHeight: nat, totalItems: nat, o: Options)
      modifies this`state
      ensures state == WithWindow(old(state), scrollTop, clientHeight, totalItems, o)
      ensures state.startIndex == StartIndex(scrollTop, o)
      ensures state.endIndex == EndIndex(scrollTop, clientHeight, totalItems, o)
      ensures forall i :: IsItemVisible(i) <==> state.startIndex <= i <= state.endIndex
      ensures forall i :: IsItemVisible(i) ==> 0 <= i < totalItems
    {
      var s, e, items := ComputeWindow(scrollTop, clientHeight, totalItems, o);
      assert items == Range(s, e);
      state := state.(startIndex := s, endIndex := e, visibleItems := items, scrollTop := scrollTop);
    }

    /** `initialize` (lines 50-72): remember the element, replace the resize
        observer, compute the window with the given options merged over the
        defaults, then record `totalItems`. */
    method Initialize(element: Token, totalItems: nat, options: PartialOptions, scrollTop: nat, clientHeight: nat)
      modifies this`state, this`scrollElement, this`resizeObserver, this`nextHandle
      ensures scrollElement == Some(element)
      ensures resizeObserver == Some(Token(old(nextHandle))) && nextHandle == old(nextHandle) + 1
      ensures state == WithWindow(old(state), scrollTop, clientHeight, totalItems, Merge(DefaultOptions, options)).(totalItems := totalItems)
      ensures state.totalItems == totalItems
    {
      scrollElement := Some(element);
      var merged := Merge(DefaultOptions, options);
      SetupResizeObserver();
      UpdateVisibleItems(scrollTop, clientHeight, totalItems, merged);
      state := state.(totalItems := totalItems);
    }

    /** `setupResizeObserver` (lines 195-209): the previous observer is
        disconnected and a new one observes the element. */
    method SetupResizeObserver()
      modifies this`resizeObserver, this`nextHandle
      ensures resizeObserver == Some(Token(old(nextHandle))) && nextHandle == old(nextHandle) + 1
    {
      var t := NewHandle();
      resizeObserver := Some(t);
    }

    /** The resize observer's callback (lines 200-206): recompute with the
        DEFAULT options and the recorded `totalItems`. */
    method Resized(scrollTop: nat, clientHeight: nat)
      modifies this`state
      ensures old(resizeObserver).None? ==> state == old(state)
      ensures old(resizeObserver).Some? ==>
        state == WithWindow(old(state), scrollTop, clientHeight, old(state).totalItems, DefaultOptions)
    {
      if resizeObserver.Some? {
        UpdateVisibleItems(scrollTop, clientHeight, state.totalItems, DefaultOptions);
      }
    }

    /** `handleScroll` (lines 162-189): mark scrolling, recompute with the
        DEFAULT options, and replace the pending settle timer by a new one. */
    method HandleScroll(scrollTop: nat, clientHeight: nat)
      modifies this`state, this`scrollTimeout, this`pendingSettles, this`nextHandle
      ensures old(scrollElement).None? ==>
        state == old(state) && scrollTimeout == old(scrollTimeout)
        && pendingSettles == old(pendingSettles) && nextHandle == old(nextHandle)
      ensures old(scrollElement).Some? ==>
        && state == WithWindow(old(state).(isScrolling := true), scrollTop, clientHeight, old(state).totalItems, DefaultOptions)
        && state.isScrolling
        && scrollTimeout == Some(Token(old(nextHandle))) && nextHandle == old(nextHandle) + 1
        && pendingSettles == (if old(scrollTimeout).Some? then old(pendingSettles) - {old(scrollTimeout).value} else old(pendingSettles)) + {Token(old(nextHandle))}
      ensures old(scrollElement).Some? && old(scrollTimeout).Some? && old(scrollTimeout).value.handle < old(nextHandle) ==>
        old(scrollTimeout).value !in pendingSettles
    {
      if scrollElement.None? {
        return;
      }
      state := state.(isScrolling := true, scrollTop := scrollTop);
      UpdateVisibleItems(scrollTop, clientHeight, state.totalItems, DefaultOptions);
      if scrollTimeout.Some? {
        pendingSettles := pendingSettles - {scrollTimeout.value};
      }
      var t := NewHandle();
      scrollTimeout := Some(t);
      pendingSettles := pendingSettles + {t};
    }

    /** `scrollToIndex` (lines 86-109): request a smooth scroll to
        `index * itemHeight`, mark scrolling and schedule a settle. */
    method ScrollToIndex(index: int, options: PartialOptions)
      modifies this`state, this`scrollRequest, this`pendingSettles, this`nextHandle
      ensures old(scrollElement).None? ==>
        state == old(state) && scrollRequest == old(scrollRequest)
        && pendingSettles == old(pendingSettles) && nextHandle == old(nextHandle)
      ensures old(scrollElement).Some? ==>
        && scrollRequest == Some(index * Merge(DefaultOptions, options).itemHeight)
        && state == old(state).(isScrolling := true)
        && pendingSettles == old(pendingSettles) + {Token(old(nextHandle))}
        && nextHandle == old(nextHandle) + 1
    {
      if scrollElement.None? {
        return;
      }
      var merged := Merge(DefaultOptions, options);
      scrollRequest := Some(index * merged.itemHeight);
      state := state.(isScrolling := true);
      var t := NewHandle();
      pendingSettles := pendingSettles + {t};
    }

    /** A settle timer's callback (lines 103-107 and 183-188): a timer that
        was cleared or already fired does nothing. */
    method SettleFired(t: Token)
      modifies this`state, this`pendingSettles
      ensures t !in old(pendingSettles) ==> state == old(state) && pendingSettles == old(pendingSettles)
      ensures t in old(pendingSettles) ==>
        state == old(state).(isScrolling := false) && pendingSettles == old(pendingSettles) - {t}
    {
      if t in pendingSettles {
        pendingSettles := pendingSettles - {t};
        state := state.(isScrolling := false);
      }
    }

    /** `destroy` (lines 143-157): forget the element and the observer and
        clear the last scroll-settle timer. */
    method Destroy()
      modifies this`scrollElement, this`resizeObserver, this`pendingSettles
      ensures scrollElement == None && resizeObserver == None
      ensures pendingSettles == if old(scrollTimeout).Some? then old(pendingSettles) - {old(scrollTimeout).value} else old(pendingSettles)
    {
      if scrollElement.Some? {
        scrollElement := None;
      }
      if resizeObserver.Some? {
        resizeObserver := None;
      }
      if scrollTimeout.Some? {
        pendingSettles := pendingSettles - {scrollTimeout.value};
      }
    }

    /** `isItemCentered` (lines 124-138): `item` is the box of the element
        with the matching `data-index`, if there is one. */
    function IsItemCentered(index: int, options: PartialOptions, container: Rect, item: Option<Rect>): (r: bool)
      reads this
      ensures r <==> (scrollElement.Some? && item.Some?
                      && Abs(Center(container) - Center(item.value))
                         < (if options.itemHeight.Some? then options.itemHeight.value else 100) as real / 2.0)
    {
      scrollElement.Some? && item.Some? && Centered(container, item.value, Merge(DefaultOptions, options).itemHeight)
    }
  }
}
