/** `VirtualScrollDirective` (src/app/directives/virtual-scroll.directive.ts):
    it puts a content wrapper into its host element and, for every scroll
    state it receives, replaces the wrapper's children by one absolutely
    positioned element per visible index, announcing each one with a
    `virtualItemRender` event. */
module VirtualScrollDirectiveModel {
  import opened Common
  import opened ScrollWindow
  import opened VirtualScrollServiceModel

  /** A child of the host element: the content wrapper (with its height in
      pixels) or some element the page put there. */
  datatype Node = ContentWrapper(height: int) | Foreign(token: Token)

  /** A positioned item element: `data-index`, `top` and `height` styles;
      `handle` gives each created element its own identity. */
  datatype ItemElement = ItemElement(handle: nat, dataIndex: int, top: int, height: int)

  /** The payload of one `virtualItemRender` emission. */
  datatype RenderEvent = RenderEvent(index: int, element: ItemElement)

  /** The elements created for `visible`, in order, numbered from `firstHandle`. */
  function Layout(visible: seq<int>, itemHeight: Positive, firstHandle: nat): seq<ItemElement>
  {
    seq(|visible|, k requires 0 <= k < |visible| => ItemElement(firstHandle + k, visible[k], visible[k] * itemHeight, itemHeight))
  }

  /** One emission per element, carrying that element. */
  function Events(items: seq<ItemElement>): seq<RenderEvent>
  {
    seq(|items|, k requires 0 <= k < |items| => RenderEvent(items[k].dataIndex, items[k]))
  }

  /** For a contiguous window the elements tile the wrapper: each starts where
      the previous one ends, the first at `startIndex * itemHeight`, and the
      last ends at `(endIndex + 1) * itemHeight`, inside a wrapper of height
      `totalItems * itemHeight`. */
  lemma LayoutTiles(startIndex: nat, endIndex: int, totalItems: nat, itemHeight: Positive, firstHandle: nat)
    requires startIndex <= endIndex < totalItems
    ensures var l := Layout(Range(startIndex, endIndex), itemHeight, firstHandle);
      && |l| == endIndex - startIndex + 1
      && l[0].top == startIndex * itemHeight
      && (forall k :: 0 <= k < |l| - 1 ==> l[k + 1].top == l[k].top + l[k].height)
      && l[|l| - 1].top + l[|l| - 1].height == (endIndex + 1) * itemHeight
      && (endIndex + 1) * itemHeight <= totalItems * itemHeight
  {
    var r := Range(startIndex, endIndex);
    var l := Layout(r, itemHeight, firstHandle);
    forall k | 0 <= k < |l| - 1 ensures l[k + 1].top == l[k].top + l[k].height {
      assert r[k + 1] == r[k] + 1;
      assert (r[k] + 1) * itemHeight == r[k] * itemHeight + itemHeight;
    }
    assert r[|l| - 1] == endIndex;
    assert (endIndex + 1) * itemHeight == endIndex * itemHeight + itemHeight;
    MulMono(endIndex + 1, totalItems, itemHeight);
  }

  class VirtualScrollDirective {
    const service: VirtualScrollService
    const host: Token
    /** The `@Input()`s. */
    var totalItems: nat
    var itemHeight: Positive
    var bufferSize: nat
    /** The visible indices of the last state received. */
    var visibleItems: seq<int>
    var hostChildren: seq<Node>
    /** The children of the content wrapper. */
    var wrapperItems: seq<ItemElement>
    /** Every `virtualItemRender` emission so far, in order. */
    var rendered: seq<RenderEvent>
    var nextElement: nat
    var subscribed: bool

    /** The inputs as Angular binds them before `ngOnInit`. */
    constructor (service: VirtualScrollService, host: Token, hostChildren: seq<Node>,
                 totalItems: nat, itemHeight: Positive, bufferSize: nat)
      ensures this.service == service && this.host == host && this.hostChildren == hostChildren
      ensures this.totalItems == totalItems && this.itemHeight == itemHeight && this.bufferSize == bufferSize
      ensures visibleItems == [] && wrapperItems == [] && rendered == [] && !subscribed
    {
      this.service, this.host, this.hostChildren := service, host, hostChildren;
      this.totalItems, this.itemHeight, this.bufferSize := totalItems, itemHeight, bufferSize;
      visibleItems, wrapperItems, rendered := [], [], [];
      nextElement := 0;
      subscribed := false;
    }

    /** `querySelector('#virtual-scroll-content')` finds the wrapper. */
    predicate HasWrapper()
      reads this`hostChildren
    {
      exists k | 0 <= k < |hostChildren| :: hostChildren[k].ContentWrapper?
    }

    /** `ngOnInit` / `setupContainer` (lines 55-81): a wrapper of height
        `totalItems * itemHeight` becomes the host's first child. */
    method SetupContainer()
      modifies this`hostChildren
      ensures hostChildren == [ContentWrapper(totalItems * itemHeight)] + old(hostChildren)
      ensures HasWrapper()
    {
      var totalHeight := totalItems * itemHeight;
      hostChildren := [ContentWrapper(totalHeight)] + hostChildren;
      assert hostChildren[0].ContentWrapper?;
    }

    /** `updateVisibleItems` (lines 108-135): without a wrapper nothing
        happens; otherwise the old children are all removed and one element
        per visible index is emitted and then appended, in order. */
    method UpdateVisibleItems(st: ScrollState)
      modifies this`wrapperItems, this`rendered, this`nextElement
      ensures !HasWrapper() ==>
        wrapperItems == old(wrapperItems) && rendered == old(rendered) && nextElement == old(nextElement)
      ensures HasWrapper() ==>
        && wrapperItems == Layout(st.visibleItems, itemHeight, old(nextElement))
        && rendered == old(rendered) + Events(wrapperItems)
        && nextElement == old(nextElement) + |st.visibleItems|
    {
      if !HasWrapper() {
        return;
      }
      while |wrapperItems| > 0
        invariant rendered == old(rendered) && nextElement == old(nextElement)
        decreases |wrapperItems|
      {
        wrapperItems := wrapperItems[1..];
      }
      ghost var base := nextElement;
      ghost var want := Layout(st.visibleItems, itemHeight, base);
      var k := 0;
      while k < |st.visibleItems|
        invariant 0 <= k <= |st.visibleItems|
        invariant nextElement == base + k
        invariant wrapperItems == want[..k]
        invariant rendered == old(rendered) + Events(want[..k])
      {
        var index := st.visibleItems[k];
        var element := ItemElement(nextElement, index, index * itemHeight, itemHeight);
        nextElement := nextElement + 1;
        assert Events(want[..k + 1]) == Events(want[..k]) + [RenderEvent(index, element)];
        rendered := rendered + [RenderEvent(index, element)];
        wrapperItems := wrapperItems + [element];
        k := k + 1;
      }
      assert want[..k] == want;
    }

    /** The subscription callback (lines 98-101); after `ngOnDestroy` has
        unsubscribed it is no longer delivered. */
    method OnScrollState(st: ScrollState)
      modifies this`visibleItems, this`wrapperItems, this`rendered, this`nextElement
      ensures !subscribed ==>
        visibleItems == old(visibleItems) && wrapperItems == old(wrapperItems)
        && rendered == old(rendered) && nextElement == old(nextElement)
      ensures subscribed ==> visibleItems == st.visibleItems
      ensures subscribed && !HasWrapper() ==> wrapperItems == old(wrapperItems) && rendered == old(rendered)
      ensures subscribed && HasWrapper() ==>
        && wrapperItems == Layout(st.visibleItems, itemHeight, old(nextElement))
        && rendered == old(rendered) + Events(wrapperItems)
    {
      if !subscribed {
        return;
      }
      visibleItems := st.visibleItems;
      UpdateVisibleItems(st);
    }

    /** `ngAfterViewInit` / `initializeVirtualScroll` (lines 86-102): the
        service is initialised with the directive's own item height and
        buffer, and the subscription at once receives the current state. */
    method InitializeVirtualScroll(scrollTop: nat, clientHeight: nat)
      modifies this`visibleItems, this`wrapperItems, this`rendered, this`nextElement, this`subscribed
      modifies service`state, service`scrollElement, service`resizeObserver, service`nextHandle
      ensures subscribed
      ensures service.scrollElement == Some(host) && service.state.totalItems == totalItems
      ensures service.state.startIndex == StartIndex(scrollTop, Options(itemHeight, clientHeight, bufferSize))
      ensures service.state.endIndex == EndIndex(scrollTop, clientHeight, totalItems, Options(itemHeight, clientHeight, bufferSize))
      ensures service.state == WithWindow(old(service.state), scrollTop, clientHeight, totalItems,
                                          Options(itemHeight, clientHeight, bufferSize)).(totalItems := totalItems)
      ensures service.state.visibleItems == Range(service.state.startIndex, service.state.endIndex)
      ensures service.resizeObserver == Some(Token(old(service.nextHandle)))
      ensures service.nextHandle == old(service.nextHandle) + 1
      ensures visibleItems == service.state.visibleItems
      ensures forall i :: IsItemVisible(i) <==> service.state.startIndex <= i <= service.state.endIndex
      ensures !HasWrapper() ==> wrapperItems == old(wrapperItems) && rendered == old(rendered)
      ensures HasWrapper() ==>
        && wrapperItems == Layout(visibleItems, itemHeight, old(nextElement))
        && rendered == old(rendered) + Events(wrapperItems)
    {
      var options := PartialOptions(Some(itemHeight), Some(clientHeight), Some(bufferSize));
      service.Initialize(host, totalItems, options, scrollTop, clientHeight);
      subscribed := true;
      MergeFull(DefaultOptions, itemHeight, clientHeight, bufferSize);
      OnScrollState(service.state);
    }

    /** `ngOnDestroy` (lines 43-50): the subscription ends and the service
        forgets its element and observer and clears its last settle timer. */
    method NgOnDestroy()
      modifies this`subscribed, service`scrollElement, service`resizeObserver, service`pendingSettles
      ensures !subscribed
      ensures service.scrollElement == None && service.resizeObserver == None
      ensures service.pendingSettles ==
        if old(service.scrollTimeout).Some? then old(service.pendingSettles) - {old(service.scrollTimeout).value}
        else old(service.pendingSettles)
    {
      subscribed := false;
      service.Destroy();
    }

    /** `isItemVisible` (lines 141-143): membership in the last list
        received; for a window received from the service, exactly the indices
        between its ends. */
    function IsItemVisible(index: int): (r: bool)
      reads this, service
      ensures r <==> index in visibleItems
      ensures visibleItems == service.state.visibleItems
              && service.state.visibleItems == Range(service.state.startIndex, service.state.endIndex) ==>
        (r <==> service.state.startIndex <= index <= service.state.endIndex)
    {
      RangeMembers(service.state.startIndex, service.state.endIndex, index);
      index in visibleItems
    }

    /** `isItemCentered` (lines 149-155): the service's test with the
        directive's own item height. */
    function IsItemCentered(index: int, clientHeight: nat, container: Rect, item: Option<Rect>): (r: bool)
      reads this, service
      ensures r <==> (service.scrollElement.Some? && item.Some? && Centered(container, item.value, itemHeight))
    {
      service.IsItemCentered(index, PartialOptions(Some(itemHeight), Some(clientHeight), Some(bufferSize)), container, item)
    }

    /** `scrollToItem` (lines 161-167): the target is `index * itemHeight`
        with the directive's own item height. */
    method ScrollToItem(index: int, clientHeight: nat)
      modifies service`state, service`scrollRequest, service`pendingSettles, service`nextHandle
      ensures old(service.scrollElement).Some? ==>
        && service.scrollRequest == Some(index * itemHeight) && service.state == old(service.state).(isScrolling := true)
        && service.pendingSettles == old(service.pendingSettles) + {Token(old(service.nextHandle))}
        && service.nextHandle == old(service.nextHandle) + 1
      ensures old(service.scrollElement).None? ==>
        && service.scrollRequest == old(service.scrollRequest) && service.state == old(service.state)
        && service.pendingSettles == old(service.pendingSettles) && service.nextHandle == old(service.nextHandle)
    {
      service.ScrollToIndex(index, PartialOptions(Some(itemHeight), Some(clientHeight), Some(bufferSize)));
    }
  }
}
