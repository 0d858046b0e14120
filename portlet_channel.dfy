/** The decision logic of uPortal's Spring portlet channel (SpringPortletChannelImpl):
    the cache-validity decision tree, the per-channel portlet window id slot kept in
    the channel static data, and the mapping of portal events onto window state,
    portlet mode and request type. The registries it delegates to are modelled as
    maps; the portlet container's load and action calls are modelled as calls that
    either complete or throw, passed in as a flag. */
module PortletChannel {
  import opened Wrappers
  import opened PortletTypes

  /** Java `int` and `long`. */
  type Int32 = x: int | -0x8000_0000 <= x < 0x8000_0000
  type Int64 = x: int | -0x8000_0000_0000_0000 <= x < 0x8000_0000_0000_0000

  /** Two's-complement wrap-around of Java `int` arithmetic. */
  function Wrap32(x: int): (r: Int32)
    ensures -0x8000_0000 <= x < 0x8000_0000 ==> r == x
    ensures (r - x) % 0x1_0000_0000 == 0
  {
    (x + 0x8000_0000) % 0x1_0000_0000 - 0x8000_0000
  }

  /** Two's-complement wrap-around of Java `long` arithmetic. */
  function Wrap64(x: int): (r: Int64)
    ensures -0x8000_0000_0000_0000 <= x < 0x8000_0000_0000_0000 ==> r == x
    ensures (r - x) % 0x1_0000_0000_0000_0000 == 0
  {
    (x + 0x8000_0000_0000_0000) % 0x1_0000_0000_0000_0000 - 0x8000_0000_0000_0000
  }

  // ---------------------------------------------------------------------------
  // Cache validity
  // ---------------------------------------------------------------------------

  /** Pluto's PortletDD.EXPIRATION_CACHE_UNSET (Integer.MIN_VALUE). */
  const EXPIRATION_CACHE_UNSET: Int32 := -0x8000_0000

  /** What the container's portlet registry service answered when asked for the
      portlet deployment descriptor: it threw, it returned null, or it returned a
      descriptor carrying its expiration-cache value in seconds. */
  datatype DescriptorLookup = LookupFailed | NoDescriptor | Descriptor(expirationCache: Int32)

  /** The descriptor was found and its expiration cache is set: only then are the
      TTLs consulted at all. */
  predicate DescriptorUsable(lookup: DescriptorLookup) {
    lookup.Descriptor? && lookup.expirationCache != EXPIRATION_CACHE_UNSET
  }

  /** The TTL in force: the window's own value when it has one, else the descriptor's. */
  function EffectiveExpirationCache(descriptorTtl: Int32, windowTtl: Option<Int32>): Int32 {
    if windowTtl.Some? then windowTtl.value else descriptorTtl
  }

  /** True when lastRender + ttl seconds, computed exactly, fits in a Java long. */
  predicate FitsInLong(lastRender: int, ttl: int) {
    -0x8000_0000_0000_0000 <= lastRender + ttl * 1000 < 0x8000_0000_0000_0000
  }

  /** isCacheValid as written. `targeted` says whether the channel's window id is in
      the request's targeted-window set, `windowTtl` is the window's own expiration
      cache (null when absent), `lastRender` the validity object (the last render
      time in milliseconds, null when absent) and `now` the current time in
      milliseconds. `ttl * 1000` is Java `int` arithmetic, widened to `long` only
      for the addition. */
  function CacheValid(targeted: bool, lookup: DescriptorLookup, windowTtl: Option<Int32>,
                      lastRender: Option<Int64>, now: Int64): (r: bool)
    // a targeted window always re-renders
    ensures targeted ==> !r
    // no descriptor (lookup threw or returned null) or an unset descriptor TTL: re-render
    ensures !DescriptorUsable(lookup) ==> !r
    ensures !targeted && DescriptorUsable(lookup) ==>
      var ttl := EffectiveExpirationCache(lookup.expirationCache, windowTtl);
      // 0 means never cache, -1 means never expire
      && (ttl == 0 ==> !r)
      && (ttl == -1 ==> r)
      // any other TTL needs a last-render time to compare against
      && (ttl != 0 && ttl != -1 && lastRender.None? ==> !r)
      // within the range where the Java arithmetic does not wrap, the cache is valid
      // exactly while the TTL since the last render has not passed
      && (ttl != 0 && ttl != -1 && lastRender.Some? &&
          -2147483 <= ttl <= 2147483 && FitsInLong(lastRender.value, ttl) ==>
            (r <==> lastRender.value + ttl * 1000 >= now))
  {
    if targeted then false
    else if !lookup.Descriptor? then false
    else if lookup.expirationCache == EXPIRATION_CACHE_UNSET then false
    else
      var ttl := EffectiveExpirationCache(lookup.expirationCache, windowTtl);
      if ttl == 0 then false
      else if ttl == -1 then true
      else if lastRender.None? then false
      else Wrap64(lastRender.value + Wrap32(ttl * 1000)) >= now
  }

  /** When the window carries its own TTL, the descriptor's value only matters
      through whether it is unset: any two set descriptor values give the same answer. */
  lemma WindowTtlOverridesDescriptor(targeted: bool, d1: Int32, d2: Int32, windowTtl: Int32,
                                     lastRender: Option<Int64>, now: Int64)
    requires d1 != EXPIRATION_CACHE_UNSET && d2 != EXPIRATION_CACHE_UNSET
    ensures CacheValid(targeted, Descriptor(d1), Some(windowTtl), lastRender, now)
         == CacheValid(targeted, Descriptor(d2), Some(windowTtl), lastRender, now)
  {
  }

  /** An unset descriptor TTL invalidates the cache even when the window has its own TTL. */
  lemma UnsetDescriptorIgnoresWindowTtl(windowTtl: Option<Int32>, lastRender: Option<Int64>, now: Int64)
    ensures !CacheValid(false, Descriptor(EXPIRATION_CACHE_UNSET), windowTtl, lastRender, now)
  {
  }

  /** A window's own TTL decides exactly as a descriptor carrying that TTL would:
      the window value takes the descriptor's place, which is then only checked for
      being set. */
  lemma WindowTtlTakesDescriptorPlace(targeted: bool, d: Int32, w: Int32,
                                      lastRender: Option<Int64>, now: Int64)
    requires d != EXPIRATION_CACHE_UNSET && w != EXPIRATION_CACHE_UNSET
    ensures EffectiveExpirationCache(d, Some(w)) == w
    ensures EffectiveExpirationCache(d, None) == d
    ensures CacheValid(targeted, Descriptor(d), Some(w), lastRender, now)
         == CacheValid(targeted, Descriptor(w), None, lastRender, now)
  {
  }

  /** The same decision with the multiplication done in `long` (`ttl * 1000L`),
      as the comment "the expiration time since last render has not passed" means. */
  function CacheValidIntended(targeted: bool, lookup: DescriptorLookup, windowTtl: Option<Int32>,
                              lastRender: Option<Int64>, now: Int64): (r: bool)
    ensures targeted ==> !r
    ensures !DescriptorUsable(lookup) ==> !r
    ensures !targeted && DescriptorUsable(lookup) ==>
      var ttl := EffectiveExpirationCache(lookup.expirationCache, windowTtl);
      && (ttl == 0 ==> !r)
      && (ttl == -1 ==> r)
      && (ttl != 0 && ttl != -1 && lastRender.None? ==> !r)
      // no bound on the TTL is needed: every Java int TTL is honoured
      && (ttl != 0 && ttl != -1 && lastRender.Some? && FitsInLong(lastRender.value, ttl) ==>
            (r <==> lastRender.value + ttl * 1000 >= now))
  {
    if targeted then false
    else if !lookup.Descriptor? then false
    else if lookup.expirationCache == EXPIRATION_CACHE_UNSET then false
    else
      var ttl := EffectiveExpirationCache(lookup.expirationCache, windowTtl);
      if ttl == 0 then false
      else if ttl == -1 then true
      else if lastRender.None? then false
      else Wrap64(lastRender.value + Wrap64(ttl * 1000)) >= now
  }

  /** A TTL of 2147484 seconds (about 24.9 days) wraps to a negative number of
      milliseconds: a page rendered just now is already treated as expired, while the
      intended decision keeps it cached. */
  lemma TtlOverflowCounterexample()
    ensures !CacheValid(false, Descriptor(2147484), None, Some(0), 0)
    ensures CacheValidIntended(false, Descriptor(2147484), None, Some(0), 0)
  {
  }

  // ---------------------------------------------------------------------------
  // Channel state: static data slot, registries, events
  // ---------------------------------------------------------------------------

  datatype PortletDefinitionId = PortletDefinitionId(id: int)

  datatype PortletEntity = PortletEntity(definitionId: PortletDefinitionId)

  /** The mutable part of an IPortletWindow that this channel reads or writes. */
  datatype PortletWindow = PortletWindow(entityId: PortletEntityId, windowState: WindowState,
                                         portletMode: PortletMode, expirationCache: Option<Int32>)

  /** The portal events the channel distinguishes; any other event number is `OtherEvent`. */
  datatype PortalEvent =
    | SessionDone
    | Unsubscribe
    | MinimizeEvent
    | MaximizeEvent
    | EditButtonEvent
    | HelpButtonEvent
    | AboutButtonEvent
    | OtherEvent(eventNumber: int)
  {
    /** The five events that force a re-render of the channel's window. */
    predicate IsWindowEvent() {
      MinimizeEvent? || MaximizeEvent? || EditButtonEvent? || HelpButtonEvent? || AboutButtonEvent?
    }
  }

  datatype ChannelError =
    | NoPortletDefinition(channelPublishId: int)   // IllegalStateException in initSession
    | NoPortletWindowId                          // IllegalStateException in action
    | PortletLoadFailure                         // the container's call threw

  /** The effect of a window event on the window it targets: window state for
      minimize and maximize, portlet mode for the three buttons. */
  function ApplyWindowEvent(w: PortletWindow, e: PortalEvent): (r: PortletWindow)
    requires e.IsWindowEvent()
    ensures r.entityId == w.entityId && r.expirationCache == w.expirationCache
    ensures e.MinimizeEvent? ==> r.windowState == Minimized && r.portletMode == w.portletMode
    ensures e.MaximizeEvent? ==> r.windowState == Normal && r.portletMode == w.portletMode
    ensures e.EditButtonEvent? ==> r.portletMode == Edit && r.windowState == w.windowState
    ensures e.HelpButtonEvent? ==> r.portletMode == Help && r.windowState == w.windowState
    ensures e.AboutButtonEvent? ==> r.portletMode == About && r.windowState == w.windowState
  {
    match e
    case MinimizeEvent => w.(windowState := Minimized)
    case MaximizeEvent => w.(windowState := Normal)
    case EditButtonEvent => w.(portletMode := Edit)
    case HelpButtonEvent => w.(portletMode := Help)
    case AboutButtonEvent => w.(portletMode := About)
  }

  /** Delivering the same window event twice leaves the window as once. */
  lemma WindowEventIdempotent(w: PortletWindow, e: PortalEvent)
    requires e.IsWindowEvent()
    ensures ApplyWindowEvent(ApplyWindowEvent(w, e), e) == ApplyWindowEvent(w, e)
  {
  }

  /** A window event changes the window state or the portlet mode, never both. */
  lemma WindowEventChangesOneAttribute(w: PortletWindow, e: PortalEvent)
    requires e.IsWindowEvent()
    ensures var r := ApplyWindowEvent(w, e);
      r == w.(windowState := r.windowState) || r == w.(portletMode := r.portletMode)
  {
  }

  /** ChannelStaticData: the channel's publish and subscribe ids, its person, and
      the hashtable entry under PORTLET_WINDOW_ID_PARAM that holds the window id. */
  class ChannelStaticData {
    const channelPublishId: int
    const channelSubscribeId: string
    const person: string
    var portletWindowId: Option<PortletWindowId>

    constructor (channelPublishId: int, channelSubscribeId: string, person: string)
      ensures this.channelPublishId == channelPublishId
      ensures this.channelSubscribeId == channelSubscribeId
      ensures this.person == person
      ensures portletWindowId == None
    {
      this.channelPublishId := channelPublishId;
      this.channelSubscribeId := channelSubscribeId;
      this.person := person;
      portletWindowId := None;
    }

    /** getWindowInstanceId: the window instance id is the channel subscribe id. */
    function WindowInstanceId(): string {
      channelSubscribeId
    }

    /** The entity this channel's subscription owns. */
    function EntityId(): PortletEntityId {
      PortletEntityId(channelSubscribeId, person)
    }

    /** The window id initSession creates or finds for this channel. */
    function WindowId(): PortletWindowId {
      PortletWindowId(WindowInstanceId(), EntityId())
    }
  }

  /** getWindowInstanceId uses the channel subscribe id, so two channels share a
      window id exactly when they are the same subscription of the same person. */
  lemma WindowIdPerSubscription(a: ChannelStaticData, b: ChannelStaticData)
    ensures a.WindowId() == b.WindowId() <==>
      a.channelSubscribeId == b.channelSubscribeId && a.person == b.person
    ensures a.WindowId().windowInstanceId == a.channelSubscribeId
  {
  }

  /** The channel together with the registries it drives: portlet definitions by
      publish id, entities, windows (one request's window registry) and the request
      type the request parameter manager records per window. */
  class SpringPortletChannel {
    var definitions: map<int, PortletDefinitionId>
    var entities: map<PortletEntityId, PortletEntity>
    var windows: map<PortletWindowId, PortletWindow>
    var requestTypes: map<PortletWindowId, RequestType>

    constructor (definitions: map<int, PortletDefinitionId>)
      ensures this.definitions == definitions
      ensures entities == map[] && windows == map[] && requestTypes == map[]
    {
      this.definitions := definitions;
      entities := map[];
      windows := map[];
      requestTypes := map[];
    }

    /** The channel's slot, once set, names a window the registry knows. */
    ghost predicate Bound(sd: ChannelStaticData)
      reads this, sd
    {
      sd.portletWindowId.Some? ==> sd.portletWindowId.value in windows
    }

    /** initSession. Fails when no definition is published under the channel's
        publish id; otherwise gets or creates the entity and the window, stores the
        window id in the channel's slot and asks the container to load the window
        (`loaded` says whether doLoad completed). The entity, window and slot stay
        in place when the load throws. */
    method InitSession(sd: ChannelStaticData, loaded: bool) returns (r: Outcome<ChannelError>)
      modifies this, sd
      ensures definitions == old(definitions) && requestTypes == old(requestTypes)
      ensures sd.channelPublishId !in old(definitions) ==>
        && r == Fail(NoPortletDefinition(sd.channelPublishId))
        && entities == old(entities) && windows == old(windows)
        && sd.portletWindowId == old(sd.portletWindowId)
      ensures sd.channelPublishId in old(definitions) ==>
        && r == (if loaded then Pass else Fail(PortletLoadFailure))
        && entities == (if sd.EntityId() in old(entities) then old(entities)
                        else old(entities)[sd.EntityId() := PortletEntity(old(definitions)[sd.channelPublishId])])
        && windows == (if sd.WindowId() in old(windows) then old(windows)
                       else old(windows)[sd.WindowId() := PortletWindow(sd.EntityId(), Normal, View, None)])
        && sd.portletWindowId == Some(sd.WindowId())
      ensures old(Bound(sd)) ==> Bound(sd)
    {
      if sd.channelPublishId !in definitions {
        return Fail(NoPortletDefinition(sd.channelPublishId));
      }
      var definitionId := definitions[sd.channelPublishId];
      var entityId := sd.EntityId();
      if entityId !in entities {
        entities := entities[entityId := PortletEntity(definitionId)];
      }
      var windowId := PortletWindowId(sd.WindowInstanceId(), entityId);
      if windowId !in windows {
        windows := windows[windowId := PortletWindow(entityId, Normal, View, None)];
      }
      sd.portletWindowId := Some(windowId);
      r := if loaded then Pass else Fail(PortletLoadFailure);
    }

    /** action. Fails with the "has initSession been called?" error when the
        channel's slot is empty; otherwise the result is that of the container's
        doAction (`performed` says whether it completed). Nothing here changes. */
    method Action(sd: ChannelStaticData, performed: bool) returns (r: Outcome<ChannelError>)
      ensures r == Fail(NoPortletWindowId) <==> sd.portletWindowId.None?
      ensures r == Pass <==> sd.portletWindowId.Some? && performed
      ensures sd.portletWindowId.Some? && !performed ==> r == Fail(PortletLoadFailure)
    {
      var portletWindowId := sd.portletWindowId;
      if portletWindowId.None? {
        return Fail(NoPortletWindowId);
      }
      r := if performed then Pass else Fail(PortletLoadFailure);
    }

    /** portalEvent. The five window events mark the channel's window as a render
        target and change its state or mode; UNSUBSCRIBE deletes the subscription's
        entity (its windows stay in the registry); SESSION_DONE and unknown events
        change nothing. */
    method HandlePortalEvent(sd: ChannelStaticData, e: PortalEvent)
      requires e.IsWindowEvent() ==> sd.portletWindowId.Some? && Bound(sd)
      modifies this
      ensures definitions == old(definitions)
      ensures e.IsWindowEvent() ==>
        var id := sd.portletWindowId.value;
        && requestTypes == old(requestTypes)[id := Render]
        && windows == old(windows)[id := ApplyWindowEvent(old(windows)[id], e)]
        && entities == old(entities)
      ensures e.Unsubscribe? ==>
        && entities == old(entities) - {sd.EntityId()}
        && windows == old(windows) && requestTypes == old(requestTypes)
      ensures e.SessionDone? || e.OtherEvent? ==>
        entities == old(entities) && windows == old(windows) && requestTypes == old(requestTypes)
      ensures old(Bound(sd)) ==> Bound(sd)
    {
      match e {
        case SessionDone =>
        case Unsubscribe =>
          entities := entities - {sd.EntityId()};
        case OtherEvent(_) =>
        case _ =>
          var id := sd.portletWindowId.value;
          var window := windows[id];
          requestTypes := requestTypes[id := Render];
          windows := windows[id := ApplyWindowEvent(window, e)];
      }
    }
  }
}
