/** Portlet vocabulary shared by the channel and the URL syntax provider:
    window states, portlet modes, request types and the identifiers of
    portlet entities and windows. */
module PortletTypes {

  /** javax.portlet.WindowState: the three standard states and any custom one. */
  datatype WindowState = Normal | Maximized | Minimized | CustomState(name: string)

  /** javax.portlet.PortletMode: the standard modes, the portal's ABOUT mode
      (IPortletAdaptor.ABOUT) and any custom one. */
  datatype PortletMode = View | Edit | Help | About | CustomMode(name: string)

  /** org.jasig.portal.portlet.url.RequestType */
  datatype RequestType = Render | Action

  /** A portlet entity is the user's instance of a published portlet, identified
      here by the channel subscribe id and the owning person's user name. */
  datatype PortletEntityId = PortletEntityId(channelSubscribeId: string, person: string)

  /** A portlet window is one rendering of an entity, identified by the window
      instance id it was created for and the entity it renders. */
  datatype PortletWindowId = PortletWindowId(windowInstanceId: string, entity: PortletEntityId)
}
