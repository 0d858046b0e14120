/** The alternate portlet URL syntax provider (AlternatePortletUrlSyntaxProviderImpl):
    turning the portal's view of a portlet URL into the PortletUrl the portlet layer
    consumes, and answering which window a request targets together with its URL.
    The portal URL provider is foreign and enters as the request's targeted window
    and a function from window ids to their portal URLs. */
module PortletUrlSyntax {
  import opened Wrappers
  import opened PortletTypes

  /** IPortalPortletUrl: the portal's parameter lists, mode, state (either may be
      null) and whether the URL is an action URL. */
  datatype PortalPortletUrl = PortalPortletUrl(
    portalParameters: map<string, seq<string>>,
    portletMode: Option<PortletMode>,
    windowState: Option<WindowState>,
    isAction: bool)

  /** PortletUrl: parameter arrays, mode, state, request type and the `secure` flag
      (null by default). */
  datatype PortletUrl = PortletUrl(
    parameters: map<string, seq<string>>,
    portletMode: Option<PortletMode>,
    windowState: Option<WindowState>,
    requestType: RequestType,
    secure: Option<bool>)

  /** `dst` is the faithful translation of `src`: the same parameter names, each
      array holding the list's values in order, mode and state copied, ACTION
      exactly for action URLs, and `secure` left at its default. */
  ghost predicate Translates(src: PortalPortletUrl, dst: PortletUrl) {
    && dst.parameters.Keys == src.portalParameters.Keys
    && (forall k :: k in src.portalParameters ==>
          |dst.parameters[k]| == |src.portalParameters[k]| &&
          forall i :: 0 <= i < |src.portalParameters[k]| ==> dst.parameters[k][i] == src.portalParameters[k][i])
    && dst.portletMode == src.portletMode
    && dst.windowState == src.windowState
    && (dst.requestType == Action <==> src.isAction)
    && dst.secure == None
  }

  /** toPortletUrl: copy each parameter list into an array, key by key, then set
      mode, request type and window state. */
  method ToPortletUrl(portalPortletUrl: PortalPortletUrl) returns (r: PortletUrl)
    ensures Translates(portalPortletUrl, r)
  {
    var argParameters := portalPortletUrl.portalParameters;
    var parameters: map<string, seq<string>> := map[];
    var pending := argParameters.Keys;
    while pending != {}
      invariant pending <= argParameters.Keys
      invariant parameters.Keys == argParameters.Keys - pending
      invariant forall k :: k in parameters ==> parameters[k] == argParameters[k]
      decreases pending
    {
      var key :| key in pending;
      var asArray := argParameters[key];
      parameters := parameters[key := asArray];
      pending := pending - {key};
    }
    var requestType := if portalPortletUrl.isAction then Action else Render;
    r := PortletUrl(parameters, portalPortletUrl.portletMode, portalPortletUrl.windowState,
                    requestType, None);
  }

  /** parsePortletParameters: null when the request targets no window, otherwise
      the targeted window id paired with the translation of its portal URL. */
  method ParsePortletParameters(targeted: Option<PortletWindowId>,
                                portletUrlOf: PortletWindowId -> PortalPortletUrl)
    returns (r: Option<(PortletWindowId, PortletUrl)>)
    ensures r.None? <==> targeted.None?
    ensures r.Some? ==> r.value.0 == targeted.value && Translates(portletUrlOf(targeted.value), r.value.1)
  {
    if targeted.None? {
      return None;
    }
    var portletWindowId := targeted.value;
    var portalPortletUrl := portletUrlOf(portletWindowId);
    var portletUrl := ToPortletUrl(portalPortletUrl);
    r := Some((portletWindowId, portletUrl));
  }
}
