/** `VirtualScrollComponent`
    (src/app/components/virtual-scroll/virtual-scroll.component.ts): the
    content height, the translation offset of the item block and the visible
    indices it re-emits, all derived from the service's scroll state. */
module VirtualScrollComponentModel {
  import opened Common
  import opened ScrollWindow
  import opened VirtualScrollServiceModel

  class VirtualScrollComponent {
    const service: VirtualScrollService
    /** `isPlatformBrowser(platformId)`. */
    const browser: bool
    /** The `#scrollContainer` element. */
    const container: Token
    var itemHeight: Positive
    var bufferSize: nat
    var totalItems: nat
    var totalHeight: int
    var offset: int
    var visibleItems: seq<int>
    /** Every `visibleItemsChange` emission so far, in order. */
    var emitted: seq<seq<int>>
    var subscribed: bool

    /** The inputs as Angular binds them; the fields start at 0 and []. */
    constructor (service: VirtualScrollService, browser: bool, container: Token,
                 itemHeight: Positive, bufferSize: nat, totalItems: nat)
      ensures this.service == service && this.browser == browser && this.container == container
      ensures this.itemHeight == itemHeight && this.bufferSize == bufferSize && this.totalItems == totalItems
      ensures totalHeight == 0 && offset == 0 && visibleItems == [] && emitted == [] && !subscribed
    {
      this.service, this.browser, this.container := service, browser, container;
      this.itemHeight, this.bufferSize, this.totalItems := itemHeight, bufferSize, totalItems;
      totalHeight, offset, visibleItems, emitted := 0, 0, [], [];
      subscribed := false;
    }

    /** `ngOnInit` (lines 53-57): the content height, in the browser only. */
    method NgOnInit()
      modifies this`totalHeight
      ensures totalHeight == if browser then totalItems * itemHeight else old(totalHeight)
    {
      if browser {
        totalHeight := totalItems * itemHeight;
      }
    }

    /** The subscription callback (lines 79-83): one emission per state;
        after `ngOnDestroy` has unsubscribed it is no longer delivered. */
    method OnScrollState(st: ScrollState)
      modifies this`offset, this`visibleItems, this`emitted
      ensures !subscribed ==> offset == old(offset) && visibleItems == old(visibleItems) && emitted == old(emitted)
      ensures subscribed ==> offset == st.startIndex * itemHeight
      ensures subscribed ==> visibleItems == st.visibleItems
      ensures subscribed ==> emitted == old(emitted) + [st.visibleItems]
    {
      if !subscribed {
        return;
      }
      offset := st.startIndex * itemHeight;
      visibleItems := st.visibleItems;
      emitted := emitted + [visibleItems];
    }

    /** `ngAfterViewInit` / `initializeVirtualScroll` (lines 59-85): off the
        browser nothing happens; in it the service is initialised and the
        subscription at once receives the current state. */
    method NgAfterViewInit(scrollTop: nat, clientHeight: nat)
      modifies this`offset, this`visibleItems, this`emitted, this`subscribed
      modifies service`state, service`scrollElement, service`resizeObserver, service`nextHandle
      ensures !browser ==>
        && offset == old(offset) && visibleItems == old(visibleItems) && emitted == old(emitted)
        && subscribed == old(subscribed)
        && service.state == old(service.state) && service.scrollElement == old(service.scrollElement)
        && service.resizeObserver == old(service.resizeObserver) && service.nextHandle == old(service.nextHandle)
      ensures browser ==>
        && service.state == WithWindow(old(service.state), scrollTop, clientHeight, totalItems,
                                       Options(itemHeight, clientHeight, bufferSize)).(totalItems := totalItems)
        && service.state.endIndex == EndIndex(scrollTop, clientHeight, totalItems, Options(itemHeight, clientHeight, bufferSize))
        && service.state.visibleItems == Range(service.state.startIndex, service.state.endIndex)
        && service.resizeObserver == Some(Token(old(service.nextHandle)))
        && service.nextHandle == old(service.nextHandle) + 1
      ensures browser ==>
        && subscribed
        && service.scrollElement == Some(container) && service.state.totalItems == totalItems
        && service.state.startIndex == StartIndex(scrollTop, Options(itemHeight, clientHeight, bufferSize))
        && offset == service.state.startIndex * itemHeight
        && visibleItems == service.state.visibleItems
        && emitted == old(emitted) + [visibleItems]
    {
      if browser {
        var options := PartialOptions(Some(itemHeight), Some(clientHeight), Some(bufferSize));
        service.Initialize(container, totalItems, options, scrollTop, clientHeight);
        subscribed := true;
        MergeFull(DefaultOptions, itemHeight, clientHeight, bufferSize);
        OnScrollState(service.state);
      }
    }

    /** `ngOnDestroy` (lines 87-90): the subscription ends and the service
        is destroyed. */
    method NgOnDestroy()
      modifies this`subscribed, service`scrollElement, service`resizeObserver, service`pendingSettles
      ensures !subscribed
      ensures service.scrollElement == None && service.resizeObserver == None
      ensures service.pendingSettles ==
        if old(service.scrollTimeout).Some? then old(service.pendingSettles) - {old(service.scrollTimeout).value}
        else old(service.pendingSettles)
    {
      subscribed := false;
      service.Destroy();
    }
  }
}
