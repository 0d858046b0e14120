# uPortal portlet channel, fragment subscriptions and portlet URL translation in Dafny

This project models three pieces of the uPortal enterprise portal and proves what
they promise:

- **The Spring portlet channel** (`SpringPortletChannelImpl`). It covers the
  cache-validity decision for a portlet window and the per-channel slot in the
  channel static data that holds the portlet window id. `initSession` fills the
  slot and `action` requires it. It also covers how portal events (minimize,
  maximize, the edit/help/about buttons, unsubscribe, session done) change a
  window's state, its mode, its request type and the entity registry. The
  definition, entity and window registries and the request-parameter manager are
  maps on one class. The static data is a class of its own with the window-id
  slot as a field. The portlet container's `doLoad`/`doAction` are calls that
  either complete or throw, given as a flag.
- **The fragment-subscription importer/exporter**
  (`SubscribedFragmentImporterExporter`). The subscription DAO is a table of
  (subscriber, fragment owner, active) rows in DAO order, with at most one row
  per pair. The user identity store is the set of known user names.
  `importData`, `getPerson`, `exportData`/`exportInternal`, `deleteData` and
  `getPortalData` are methods on a class holding both. Each is proved against a
  specification function, and the lemmas state what the specification means.
- **The alternate portlet URL syntax provider**
  (`AlternatePortletUrlSyntaxProviderImpl`). `toPortletUrl` copies the portal's
  parameter lists key by key, copies mode and state, and derives the request
  type. `parsePortletParameters` answers null or (targeted window, URL).

Files: `wrappers.dfy` (Option, Result, Outcome), `portlet_types.dfy` (window
states, portlet modes, request types, entity and window ids),
`portlet_channel.dfy`, `subscribed_fragments.dfy`, `portlet_url_syntax.dfy`.

Modelling choices:

- Java `int` and `long` are the subset types `Int32` and `Int64`.
  `isCacheValid`'s `expirationCache * 1000` wraps as 32-bit arithmetic before it
  is widened for the 64-bit addition. `Wrap32` and `Wrap64` write this out.
- `EXPIRATION_CACHE_UNSET` is Pluto's `PortletDD` constant, `Integer.MIN_VALUE`.
- The current time and the descriptor lookup are parameters.
- The fragment comparator is not part of this model's source. It is a function
  parameter `le` that is required to be a total order.
- `Collections.sort` is the function `SortOwners`. It is proved to return a
  sorted permutation.
- People are identified by user name. Rows that `createUserFragmentInfo` adds
  are active.
- New windows start NORMAL, in VIEW mode, with no TTL override of their own.
- `IUserIdentityStore` is not part of this model. The model assumes that the
  store's `getPerson(name, false)` throws for an unknown name and never returns
  null. `getPerson` at SubscribedFragmentImporterExporter.java:117-128 is written
  for a store that throws: its create branch is reached only through the catch.
  Under that assumption, an unknown user makes `getPerson(id, false)` raise the
  importer's "Unrecognized user" RuntimeException (lines 121-126). So the
  null-person branches at lines 100-105, 140-143 and 186-189 are never reached;
  `exportData` and `deleteData` return the error rather than null.

## Model

| member | source | states |
|---|---|---|
| PortletChannel.Wrap32 | uportal-impl/src/main/java/org/jasig/portal/channels/portlet/SpringPortletChannelImpl.java:359 | A Java `int` product is the exact value when in range, and equal to it modulo 2^32 always |
| PortletChannel.Wrap64 | uportal-impl/src/main/java/org/jasig/portal/channels/portlet/SpringPortletChannelImpl.java:359 | A Java `long` sum is the exact value when in range, and equal to it modulo 2^64 always |
| PortletChannel.CacheValid | uportal-impl/src/main/java/org/jasig/portal/channels/portlet/SpringPortletChannelImpl.java:292-360 | A targeted window is never valid. Neither is one whose descriptor lookup threw, returned null or has an unset TTL. For the effective TTL, 0 gives false and -1 gives true. Other TTLs give false without a last-render time. For \|ttl\| <= 2147483 without long overflow, the result is true iff lastRender + ttl*1000 >= now |
| PortletChannel.WindowTtlOverridesDescriptor | uportal-impl/src/main/java/org/jasig/portal/channels/portlet/SpringPortletChannelImpl.java:332-340 | When the window has its own TTL, any two set descriptor TTLs give the same decision |
| PortletChannel.UnsetDescriptorIgnoresWindowTtl | uportal-impl/src/main/java/org/jasig/portal/channels/portlet/SpringPortletChannelImpl.java:326-330 | An unset descriptor TTL gives false whatever the window's own TTL |
| PortletChannel.CacheValidIntended | uportal-impl/src/main/java/org/jasig/portal/channels/portlet/SpringPortletChannelImpl.java:355-359 | The decision with a 64-bit product: the same early answers, and for every Java int TTL (no bound on the TTL) true iff lastRender + ttl*1000 >= now, when the exact sum fits in a long |
| PortletChannel.WindowTtlTakesDescriptorPlace | uportal-impl/src/main/java/org/jasig/portal/channels/portlet/SpringPortletChannelImpl.java:332-340 | The effective TTL is the window's own when it has one and the descriptor's otherwise. A set window TTL decides exactly as a descriptor carrying that TTL would |
| PortletChannel.TtlOverflowCounterexample | uportal-impl/src/main/java/org/jasig/portal/channels/portlet/SpringPortletChannelImpl.java:359 | A TTL of 2147484 s with lastRender = now = 0 gives false as written and true in the intended decision |
| PortletChannel.ApplyWindowEvent | uportal-impl/src/main/java/org/jasig/portal/channels/portlet/SpringPortletChannelImpl.java:440-461 | MINIMIZE sets MINIMIZED and MAXIMIZE sets NORMAL, keeping the mode. EDIT, HELP and ABOUT set their mode, keeping the state. Entity and TTL are unchanged |
| PortletChannel.WindowEventIdempotent | uportal-impl/src/main/java/org/jasig/portal/channels/portlet/SpringPortletChannelImpl.java:440-461 | Delivering a window event twice leaves the window as delivering it once |
| PortletChannel.WindowEventChangesOneAttribute | uportal-impl/src/main/java/org/jasig/portal/channels/portlet/SpringPortletChannelImpl.java:440-461 | A window event changes only the window state or only the portlet mode |
| PortletChannel.WindowIdPerSubscription | uportal-impl/src/main/java/org/jasig/portal/channels/portlet/SpringPortletChannelImpl.java:159-174 | The window instance id is the channel subscribe id, so two channels share a window id iff they have the same subscribe id and person |
| PortletChannel.SpringPortletChannel.InitSession | uportal-impl/src/main/java/org/jasig/portal/channels/portlet/SpringPortletChannelImpl.java:203-242 | No definition for the publish id: the definition error and nothing changes. Otherwise the entity and window are created if absent, the slot holds the window id, and the result is the load's. The state stays even when the load throws |
| PortletChannel.SpringPortletChannel.Action | uportal-impl/src/main/java/org/jasig/portal/channels/portlet/SpringPortletChannelImpl.java:247-275 | Fails with the missing-window-id error iff the slot is empty. Otherwise it passes iff the container's action completed |
| PortletChannel.SpringPortletChannel.HandlePortalEvent | uportal-impl/src/main/java/org/jasig/portal/channels/portlet/SpringPortletChannelImpl.java:410-470 | A window event marks the slot's window RENDER and applies ApplyWindowEvent to that window only. UNSUBSCRIBE removes exactly the (subscribe id, person) entity. SESSION_DONE and unknown events change nothing |
| SubscribedFragments.PersonLookup | uPortal-io/uPortal-io-types/src/main/java/org/apereo/portal/io/xml/subscribedfragment/SubscribedFragmentImporterExporter.java:115-131 | Fails, with "Unrecognized user", iff the user is unknown and (not create or errorOnMissingUser). Otherwise it yields that user |
| SubscribedFragments.SubscribedFragmentImporterExporter.GetPerson | uPortal-io/uPortal-io-types/src/main/java/org/apereo/portal/io/xml/subscribedfragment/SubscribedFragmentImporterExporter.java:115-131 | Returns the PersonLookup answer, and the identity store gains the user exactly when it was created |
| SubscribedFragments.FirstUnknown | uPortal-io/uPortal-io-types/src/main/java/org/apereo/portal/io/xml/subscribedfragment/SubscribedFragmentImporterExporter.java:97-105 | None iff every listed owner is known. Otherwise the result is the first unknown owner in list order |
| SubscribedFragments.ImportRowsExtends | uPortal-io/uPortal-io-types/src/main/java/org/apereo/portal/io/xml/subscribedfragment/SubscribedFragmentImporterExporter.java:107-111 | The import only appends. Old rows keep their places and values, and new rows are active rows of the user for listed owners |
| SubscribedFragments.ImportRowsCovers | uPortal-io/uPortal-io-types/src/main/java/org/apereo/portal/io/xml/subscribedfragment/SubscribedFragmentImporterExporter.java:97-112 | After the import every listed owner has a row for the user |
| SubscribedFragments.ImportRowsUnique | uPortal-io/uPortal-io-types/src/main/java/org/apereo/portal/io/xml/subscribedfragment/SubscribedFragmentImporterExporter.java:107-111 | The import keeps one row per (subscriber, owner) pair, so an owner listed twice is subscribed once |
| SubscribedFragments.ImportRowsNoop | uPortal-io/uPortal-io-types/src/main/java/org/apereo/portal/io/xml/subscribedfragment/SubscribedFragmentImporterExporter.java:107-111 | The import changes nothing when every listed owner already has a row |
| SubscribedFragments.ImportIdempotent | uPortal-io/uPortal-io-types/src/main/java/org/apereo/portal/io/xml/subscribedfragment/SubscribedFragmentImporterExporter.java:93-113 | Importing a document again after it succeeded succeeds and leaves store and table as they were |
| SubscribedFragments.ImportEstablishesSubscriptions | uPortal-io/uPortal-io-types/src/main/java/org/apereo/portal/io/xml/subscribedfragment/SubscribedFragmentImporterExporter.java:93-113 | After a successful import every listed owner is subscribed. Existing rows are unchanged and in place, and only active rows of the importing user are added |
| SubscribedFragments.ImportFailsOnUnknownUser | uPortal-io/uPortal-io-types/src/main/java/org/apereo/portal/io/xml/subscribedfragment/SubscribedFragmentImporterExporter.java:91-105 | Import fails iff the importing user is unknown with errorOnMissingUser on, or some listed owner is unknown |
| SubscribedFragments.SubscribedFragmentImporterExporter.ImportData | uPortal-io/uPortal-io-types/src/main/java/org/apereo/portal/io/xml/subscribedfragment/SubscribedFragmentImporterExporter.java:91-113 | On failure the error is returned and the store and table roll back. On success they are ImportSpec's, and one row per pair is kept |
| SubscribedFragments.RowsOfMembers | uPortal-io/uPortal-io-types/src/main/java/org/apereo/portal/io/xml/subscribedfragment/SubscribedFragmentImporterExporter.java:154-155 | The user's rows are exactly the table rows whose subscriber is that user |
| SubscribedFragments.ActiveOwnersMembers | uPortal-io/uPortal-io-types/src/main/java/org/apereo/portal/io/xml/subscribedfragment/SubscribedFragmentImporterExporter.java:154-162 | The collected owners are exactly the owners of the active rows |
| SubscribedFragments.InsertPermutes | uPortal-io/uPortal-io-types/src/main/java/org/apereo/portal/io/xml/subscribedfragment/SubscribedFragmentImporterExporter.java:168 | Inserting adds exactly one occurrence of the element |
| SubscribedFragments.InsertSorted | uPortal-io/uPortal-io-types/src/main/java/org/apereo/portal/io/xml/subscribedfragment/SubscribedFragmentImporterExporter.java:168 | Inserting into a sorted list under a connex order keeps it sorted |
| SubscribedFragments.SortOwnersCorrect | uPortal-io/uPortal-io-types/src/main/java/org/apereo/portal/io/xml/subscribedfragment/SubscribedFragmentImporterExporter.java:168 | The sort returns a sorted permutation of its input |
| SubscribedFragments.ExportExact | uPortal-io/uPortal-io-types/src/main/java/org/apereo/portal/io/xml/subscribedfragment/SubscribedFragmentImporterExporter.java:148-171 | The export is null iff the user has no active subscription. Otherwise it is in the user's name, is sorted, and lists an owner iff the user has an active subscription to it |
| SubscribedFragments.RowsOfUnique | uPortal-io/uPortal-io-types/src/main/java/org/apereo/portal/io/xml/subscribedfragment/SubscribedFragmentImporterExporter.java:154-155 | The user's rows have one row per pair and all belong to the user |
| SubscribedFragments.ActiveOwnersDistinct | uPortal-io/uPortal-io-types/src/main/java/org/apereo/portal/io/xml/subscribedfragment/SubscribedFragmentImporterExporter.java:154-162 | One user's rows give each owner at most once |
| SubscribedFragments.ExportDistinct | uPortal-io/uPortal-io-types/src/main/java/org/apereo/portal/io/xml/subscribedfragment/SubscribedFragmentImporterExporter.java:148-171 | The export lists each owner at most once |
| SubscribedFragments.SubscribedFragmentImporterExporter.ExportInternal | uPortal-io/uPortal-io-types/src/main/java/org/apereo/portal/io/xml/subscribedfragment/SubscribedFragmentImporterExporter.java:148-171 | The collect-then-sort loop returns ExportSpec of the current table |
| SubscribedFragments.SubscribedFragmentImporterExporter.ExportData | uPortal-io/uPortal-io-types/src/main/java/org/apereo/portal/io/xml/subscribedfragment/SubscribedFragmentImporterExporter.java:137-146 | Fails with "Unrecognized user" iff the user is unknown. Otherwise it returns the user's export, which may be null |
| SubscribedFragments.DropNothing | uPortal-io/uPortal-io-types/src/main/java/org/apereo/portal/io/xml/subscribedfragment/SubscribedFragmentImporterExporter.java:193-196 | Deleting no rows leaves the table as it is |
| SubscribedFragments.DropRowsTwice | uPortal-io/uPortal-io-types/src/main/java/org/apereo/portal/io/xml/subscribedfragment/SubscribedFragmentImporterExporter.java:193-196 | Deleting rows a and then rows b equals deleting a + b |
| SubscribedFragments.DropOwnRows | uPortal-io/uPortal-io-types/src/main/java/org/apereo/portal/io/xml/subscribedfragment/SubscribedFragmentImporterExporter.java:193-196 | Deleting exactly the user's rows leaves the other users' rows in order |
| SubscribedFragments.OthersOfMembers | uPortal-io/uPortal-io-types/src/main/java/org/apereo/portal/io/xml/subscribedfragment/SubscribedFragmentImporterExporter.java:193-196 | After deletion a row remains iff it was in the table and belongs to another user |
| SubscribedFragments.OthersOfUnique | uPortal-io/uPortal-io-types/src/main/java/org/apereo/portal/io/xml/subscribedfragment/SubscribedFragmentImporterExporter.java:193-196 | Deletion keeps one row per pair |
| SubscribedFragments.DeleteLeavesOthers | uPortal-io/uPortal-io-types/src/main/java/org/apereo/portal/io/xml/subscribedfragment/SubscribedFragmentImporterExporter.java:193-196 | Deleting each of the user's rows leaves exactly the other users' rows in order, still one per pair |
| SubscribedFragments.SubscribedFragmentImporterExporter.DeleteData | uPortal-io/uPortal-io-types/src/main/java/org/apereo/portal/io/xml/subscribedfragment/SubscribedFragmentImporterExporter.java:182-199 | Unknown user: the error and no change. Otherwise it returns the pre-deletion export and removes every row of the user, active or not, keeping other users' rows in order |
| SubscribedFragments.UsersWithActiveSubscriptionsExact | uPortal-io/uPortal-io-types/src/main/java/org/apereo/portal/io/xml/subscribedfragment/SubscribedFragmentImporterExporter.java:78-79 | The listed users are exactly those with an active row, without repeats |
| SubscribedFragments.PortalDataOf | uPortal-io/uPortal-io-types/src/main/java/org/apereo/portal/io/xml/subscribedfragment/SubscribedFragmentImporterExporter.java:81-88 | The transform yields one entry per listed user, with that user's id, in list order |
| SubscribedFragments.SubscribedFragmentImporterExporter.GetPortalData | uPortal-io/uPortal-io-types/src/main/java/org/apereo/portal/io/xml/subscribedfragment/SubscribedFragmentImporterExporter.java:76-89 | One entry per user with an active subscription: every entry has one, every such user has an entry, and no id repeats. The entries follow the DAO listing one for one and in its order |
| PortletUrlSyntax.ToPortletUrl | uportal-impl/src/main/java/org/jasig/portal/portlet/url/AlternatePortletUrlSyntaxProviderImpl.java:71-94 | Same parameter names, each array equal to the source list element for element. Mode and state are copied, the type is ACTION iff isAction (else RENDER), and secure stays null |
| PortletUrlSyntax.ParsePortletParameters | uportal-impl/src/main/java/org/jasig/portal/portlet/url/AlternatePortletUrlSyntaxProviderImpl.java:52-63 | Null iff no window is targeted. Otherwise it pairs the targeted window id with the translation of that window's portal URL |

## Left out

- `render`, `getTitle` and `generateKey` are not modelled. They are container output, a request attribute and a clock read.
- The portlet container is not modelled. `doLoad`, `doAction` and `doRender` are foreign; their outcome is a flag, and the exception messages are dropped.
- Logging is not modelled.
- `Integer.parseInt` of the channel publish id is not modelled. The publish id is already an integer, so the NumberFormatException path is absent.
- The dependency-injection getters and setters are not modelled.
- PortletChannel.CacheValid: takes the outcome of the window-registry, entity-registry and descriptor lookups as inputs. It assumes the validity object is a `Long` or null; the ClassCastException for other objects is not modelled.
- PortletChannel.SpringPortletChannel.HandlePortalEvent: requires the slot to name a registered window for the five window events. The source passes a null id to the foreign window registry instead.
- The window registry is request-scoped; the model keeps one request's registry.
- Windows are modelled as values replaced in a map. Aliasing of the window object held by other callers is not modelled.
- UNSUBSCRIBE leaves the entity's windows in the registry, as the source does.
- SubscribedFragments.SubscribedFragmentImporterExporter.ImportData, SubscribedFragments.SubscribedFragmentImporterExporter.ExportData, SubscribedFragments.SubscribedFragmentImporterExporter.DeleteData, SubscribedFragments.PersonLookup: an identity store that answers null for an unknown name is not modelled. The model assumes the store throws, so the `fragmentPerson == null` IllegalArgumentException in `importData` (lines 100-105) and the null returns of `exportData` and `deleteData` (lines 140-143, 186-189) are not modelled. For such a store the model reports "Unrecognized user" where the source would return null or throw the IllegalArgumentException.
- The rollback of `@Transactional` is modelled as restoring the identity store and the table. Spring's transaction machinery is not.
- `getFileName` relies on `SafeFilenameUtils.makeSafeFilename`, which is not part of this model. `getImportDataKeys`, `getPortalDataType` and JAXB marshalling are framework code.
- `SubscribedFragmentTypeComparator` is not part of this model. Any total order can stand in for it.
- `Collections.sort` sorts the list in place; the model sorts a sequence.
- `Collections2.transform` returns a lazy view; the model builds the sequence at once.
- SubscribedFragments.UsersWithActiveSubscriptions: the order of `getAllUsersWithActiveSubscriptions` comes from the DAO query, which is not part of this model. The model lists each user in the order of their first active row. GetPortalData keeps whatever order this listing has.
- `generatePortletUrl` is not modelled; it only returns the portal URL provider's string.
- `CInlineFrame` is not modelled; it is DOM and XSLT construction with constant cache answers.
- `IPortletPreference` is not modelled; it is an interface without behaviour.
- PortletUrlSyntax.ToPortletUrl: the `String[]` arrays of `PortletUrl` are sequences. `PortletUrl` is a value here, not a mutable bean. A parameter name mapped to a null list cannot be expressed by the model's map, so the NullPointerException that `toArray` raises for it (AlternatePortletUrlSyntaxProviderImpl.java:76) is not modelled.

## Findings

| source | as written | input that shows it | evidently intended | confidence | as-written member | corrected member |
|---|---|---|---|---|---|---|
| uportal-impl/src/main/java/org/jasig/portal/channels/portlet/SpringPortletChannelImpl.java:359 | `lastRenderTime + (expirationCache * 1000) >= now`. The product is 32-bit, so a TTL above 2147483 s (about 24.9 days) wraps negative | descriptor TTL 2147484, no window TTL, lastRender = 0, now = 0: the cache is reported expired | `expirationCache * 1000L`: the cache stays valid until lastRender + ttl seconds | not executed; high | PortletChannel.CacheValid, PortletChannel.TtlOverflowCounterexample | PortletChannel.CacheValidIntended |
