# Delivery fleet client — Dafny model

This project models the deterministic logic of the Angular client of a small delivery system
(couriers with live positions, packages assigned to couriers, an operator console):

- `Locations` (`locations.dfy`): `LocationService`, the table from delivery id to the courier's
  last position record. It is held in a BehaviorSubject. `updateLocation` merges one record key by
  key. `updateLocations` replaces the whole table and `clearLocations` empties it. Each operation
  emits its new table through `next`. The class keeps the current table and, as ghost state, the
  sequence of emitted tables. Tables are values in this model (see "## Left out").
- `PackagesService` (`packages_service.dfy`): how every request of the packages service is built
  (verb, URL, body). It includes the role rule of `getPackages`: a courier with a stored user id
  gets only their own packages, and every other session gets all packages. `ParseUrl` reads a URL
  back as the endpoint it addresses. Every request builder is proved to address exactly the
  endpoint and package it was given.
- `Decimal` (`decimal.dfy`): the `${id}` rendering of integer ids inside URLs, with a parser proved
  to invert it. So distinct ids never share a URL.
- `DeliveryPage` (`delivery_page.dfy`): the courier page. It covers the status vocabulary
  (`mapStatus`), the button gating (`showActions`), the CSS class (`getStatusClass`), the labelling
  of loaded packages, and the per-package "updating" flags set and cleared around status changes.
- `AdminPage` (`admin_page.dfy`): the operator console. It covers the two severity tables, the
  defaulting of missing response lists, the empty-address guard of the add form, and the
  assignment dialog's selection and visibility.
- `Toasts`, `Wrappers`: the notifications the pages show, and `Option`/`Result`.

Each asynchronous operation is split into two members. The first is the synchronous part up to
the subscription: it changes fields and returns the `Request` the service would send. The second
is a handler method that receives the outcome: `Ok` or `Err`, or `ok: bool` when the response body
is not used. Angular's HttpClient calls `next` and then `complete` on success, and only `error` on
failure. The handlers follow that order. `getPackages` reads the role and user id from local
storage on every call. So each page method that sends it takes a `Session` value holding what
storage contains at that moment.

## Model

| member | source | states |
|---|---|---|
| `Locations.Merge` | src/app/services/location.service.ts:18-21 | keys supplied by the update win; keys it omits keep the previous record's values; with no previous record the result is the update itself |
| `Locations.Updated` | src/app/services/location.service.ts:15-22 | the published table has the old keys plus `id`; `id` maps to the merged record; every other entry is unchanged |
| `Locations.UpdateSetsSuppliedFields` | src/app/services/location.service.ts:14-22 | after an update, `lat`, `lng` and any supplied `username`/`state` hold the new values in the entry for `id` |
| `Locations.UpdateKeepsUnsuppliedFields` | src/app/services/location.service.ts:18-21 | keys of the previous entry that the update omits are retained |
| `Locations.UpdateCreatesEntry` | src/app/services/location.service.ts:19-20 | a courier with no entry gets exactly the supplied record |
| `Locations.UpdateFrame` | src/app/services/location.service.ts:15-17 | no other id gains, loses or changes its entry |
| `Locations.MergeIdempotent` | src/app/services/location.service.ts:18-21 | merging the same record twice equals merging it once |
| `Locations.UpdateIdempotent` | src/app/services/location.service.ts:14-22 | applying the same `(id, loc)` twice publishes the same table as applying it once |
| `Locations.LocationService.constructor` | src/app/services/location.service.ts:9 | the subject starts with the empty table, published once |
| `Locations.LocationService.CurrentLocations` | src/app/services/location.service.ts:11 | subscribers read the last published table |
| `Locations.LocationService.UpdateLocation` | src/app/services/location.service.ts:14-23 | the current table becomes `Updated(old table, id, loc)` and is appended to the published tables, earlier ones unchanged |
| `Locations.LocationService.UpdateLocations` | src/app/services/location.service.ts:26-28 | the current table becomes exactly the given table, so entries absent from it are gone; it is published |
| `Locations.LocationService.ClearLocations` | src/app/services/location.service.ts:31-33 | the current table becomes empty and is published |
| `Locations.PublishedTablesAreNotMutated` | src/app/services/location.service.ts:15-22 | the emitted history only grows: after a later update and a clear, the table the first update emitted is still recorded as it was |
| `Decimal.IntToString` | src/app/services/package.service.ts:45 | for ids of magnitude at most 2^53, the `${id}` rendering is the canonical decimal: a `-` exactly for negative ids, followed by digits with no leading zero |
| `Decimal.ParseIntOfIntToString` | src/app/services/package.service.ts:45 | reading the rendered id back gives the id |
| `Decimal.IntToStringInjective` | src/app/services/package.service.ts:57 | distinct ids render to distinct strings |
| `Decimal.IntToStringOfParseInt` | src/app/services/package.service.ts:45 | the parser reads only canonical numerals: a string it reads as `n` is exactly the rendering of `n` (no leading zeros, no `-0`) |
| `PackagesService.GetPackages` | src/app/services/package.service.ts:27-37 | a GET with no body: to `/packages/delivery/{userId}` when the role is `delivery` and the stored id is present and non-empty, to `/packages` otherwise |
| `PackagesService.AddPackage` | src/app/services/package.service.ts:39-41 | a POST to `/addPackages` whose body is the package data unchanged |
| `PackagesService.AssignPackage` | src/app/services/package.service.ts:43-48 | a PUT to `/assignPackage/{packageId}` with body `{delivery_id: deliveryId}`; its URL is the one `ParseUrl` reads as that package's assign endpoint |
| `PackagesService.AssignPackageUrlIsUnique` | src/app/services/package.service.ts:45 | the only URL read as the assign endpoint of `packageId` is `/assignPackage/` followed by the canonical rendering of `packageId`, so `AssignPackage` pins the exact text |
| `PackagesService.GetAssignedPackages` | src/app/services/package.service.ts:51-53 | a GET with no body to `/packages/delivery/{deliveryId}` |
| `PackagesService.UpdatePackageStatus` | src/app/services/package.service.ts:55-60 | a PUT to `/updatePackageStatus/{packageId}` with body `{estatus: newStatus}`, the status passed through unchanged; its URL is the one `ParseUrl` reads as that package's status endpoint |
| `PackagesService.UpdatePackageStatusUrlIsUnique` | src/app/services/package.service.ts:57 | the only URL read as the status endpoint of `packageId` is `/updatePackageStatus/` followed by the canonical rendering of `packageId`, so `UpdatePackageStatus` pins the exact text |
| `PackagesService.AssignedPackagesIsCourierBranch` | src/app/services/package.service.ts:51-53 | `getAssignedPackages(id)` is the request `getPackages` sends for a courier session whose stored id is `id` |
| `PackagesService.AssignPackageInjective` | src/app/services/package.service.ts:43-48 | two assignment requests are equal only for the same package and courier |
| `PackagesService.UpdatePackageStatusTargetsOnePackage` | src/app/services/package.service.ts:55-60 | status updates of different packages never share a URL |
| `DeliveryPage.MapStatus` | src/app/pages/delivery/delivery.component.ts:120-128 | `pending`, `in_transit`, `delivered` and `cancelled` map to `Pendiente`, `En camino`, `Entregado` and `Cancelado`; any other string is returned unchanged |
| `DeliveryPage.ShowActions` | src/app/pages/delivery/delivery.component.ts:188-190 | true exactly for the labels `Pendiente` and `En camino` |
| `DeliveryPage.MapStatusIdempotent` | src/app/pages/delivery/delivery.component.ts:120-128 | no label is itself a code, so mapping twice equals mapping once |
| `DeliveryPage.GetStatusClass` | src/app/pages/delivery/delivery.component.ts:192-198 | `status-delivered` exactly for `Entregado`, `status-cancelled` exactly for `Cancelado`, the empty class for everything else |
| `DeliveryPage.ShowActionsOfMapStatus` | src/app/pages/delivery/delivery.component.ts:188-190 | buttons are shown for a mapped status iff the raw status is `pending`, `in_transit`, `Pendiente` or `En camino` |
| `DeliveryPage.StatusClassOfMapStatus` | src/app/pages/delivery/delivery.component.ts:192-197 | a mapped status gets a closed-package class iff the raw status is the matching code or label |
| `DeliveryPage.ActionsOnlyWithoutClosedClass` | src/app/pages/delivery/delivery.component.ts:188-197 | a status that shows buttons never has a closed-package class |
| `DeliveryPage.Decorate` | src/app/pages/delivery/delivery.component.ts:101-104 | the loaded list has the response's length and order; each row keeps its package and carries `estado = mapStatus(estatus)` |
| `DeliveryPage.DeliveryComponent.constructor` | src/app/pages/delivery/delivery.component.ts:41-43 | no packages, loading shown, no flags |
| `DeliveryPage.DeliveryComponent.LoadPackages` | src/app/pages/delivery/delivery.component.ts:97-99 | sets `loading` and sends `getPackages` for the session |
| `DeliveryPage.DeliveryComponent.OnPackagesLoaded` | src/app/pages/delivery/delivery.component.ts:100-116 | on a response the list becomes the decorated packages; on an error the list stays and an error toast is added; `loading` is cleared either way |
| `DeliveryPage.DeliveryComponent.EntregarPaquete` | src/app/pages/delivery/delivery.component.ts:134-136 | sets `updatingStatus[id]` to true, changes no other flag, and requests status `delivered` for that id |
| `DeliveryPage.DeliveryComponent.CancelarPaquete` | src/app/pages/delivery/delivery.component.ts:161-163 | sets `updatingStatus[id]` to true, changes no other flag, and requests status `cancelled` for that id |
| `DeliveryPage.DeliveryComponent.OnStatusUpdated` | src/app/pages/delivery/delivery.component.ts:137-157 | success: a toast, a reload with `loading` set, and only `updatingStatus[id]` reset to false; error: an error toast and all flags unchanged (same handlers at lines 164-184 for cancel) |
| `DeliveryPage.FailedUpdateLeavesFlagSet` | src/app/pages/delivery/delivery.component.ts:146-157 | after a failed delivery request the package's flag stays true |
| `DeliveryPage.CompletionClearsOnlyItsFlag` | src/app/pages/delivery/delivery.component.ts:161-185 | completing one cancellation clears that package's flag, leaves another pending flag set, and the request addressed that package with `cancelled` |
| `AdminPage.GetStatusSeverity` | src/app/pages/admin/admin.component.ts:67-80 | `warning` exactly for `En espera`, `success` exactly for `Entregado`, `danger` exactly for `Cancelado`, `info` for every other label |
| `AdminPage.GetDeliveryStatusSeverity` | src/app/pages/admin/admin.component.ts:82-93 | `success` exactly for `Disponible`, `warning` exactly for `Ocupado`, `danger` exactly for `Inactivo`, `info` otherwise |
| `AdminPage.WarningOnlyForLiteralEnEspera` | src/app/pages/admin/admin.component.ts:69-70 | a fact about the two vocabularies: no label the courier page's `mapStatus` produces from a known code is coloured `warning` by the admin table; only the literal string `En espera` is |
| `AdminPage.AdminComponent.constructor` | src/app/pages/admin/admin.component.ts:60-97 | empty lists, no selection, both dialogs closed, empty address |
| `AdminPage.AdminComponent.OnDeliveriesLoaded` | src/app/pages/admin/admin.component.ts:111-119 | a response missing `usuarios` gives the empty list, otherwise its list; an error keeps the list and adds an error toast |
| `AdminPage.AdminComponent.LoadUnassignedPackages` | src/app/pages/admin/admin.component.ts:122-123 | sends `getPackages` for the session |
| `AdminPage.AdminComponent.OnUnassignedPackagesLoaded` | src/app/pages/admin/admin.component.ts:124-131 | a response missing `paquetes` gives the empty list, otherwise its list; an error keeps the list and adds an error toast |
| `AdminPage.AdminComponent.ShowAddPackageDialog` | src/app/pages/admin/admin.component.ts:134-136 | opens the add dialog |
| `AdminPage.AdminComponent.AddPackage` | src/app/pages/admin/admin.component.ts:138-144 | an empty address adds a warning and sends nothing; any other address is posted unchanged |
| `AdminPage.AdminComponent.OnPackageAdded` | src/app/pages/admin/admin.component.ts:145-155 | success closes the dialog, resets the form to an empty address and reloads; an error only adds a toast |
| `AdminPage.AdminComponent.ShowAssignDialog` | src/app/pages/admin/admin.component.ts:158-162 | selects the courier, reloads the packages and opens the dialog |
| `AdminPage.AdminComponent.AssignPackage` | src/app/pages/admin/admin.component.ts:164-167 | sends nothing without a selected courier; otherwise assigns the package to the selected courier's id |
| `AdminPage.AdminComponent.OnPackageAssigned` | src/app/pages/admin/admin.component.ts:168-178 | success closes the dialog, clears the selection and reloads; an error only adds a toast |
| `AdminPage.EmptyAddressSendsNothing` | src/app/pages/admin/admin.component.ts:139-142 | submitting an empty form sends no request and shows exactly one warning |
| `AdminPage.AssignmentRoundTrip` | src/app/pages/admin/admin.component.ts:158-171 | select, assign, success: the request names that package and courier; afterwards the dialog is closed, nothing is selected and a second assign sends nothing |

## Left out

- Socket.IO and browser geolocation (src/app/services/socket.service.ts and the socket and geolocation code of the courier page): asynchronous callback plumbing with nothing to state. `ubicacionActual`, `ngOnInit` and `ngOnDestroy` are left out with them.
- The map page, the login page, the login, delivery and paquetes services, bootstrap and routes: UI rendering, authentication and bare HTTP calls.
- The request that `loadDeliveries` sends goes through `DeliveryService.getDeliveries`, which is not part of this model. Only its handlers are modelled (`OnDeliveriesLoaded`).
- Toasts keep only their severity and detail line. Console logging and router navigation (`IrInicio`) are left out.
- RxJS and HttpClient: the subscription is split into a method that issues the request and a handler method. Which handlers run, and in what order, is left to the caller of the model. Concurrent interleavings are not explored.
- Locations.Location: latitude and longitude are floating point in the source and are opaque integers here. An optional key explicitly set to `undefined` overwrites the previous value under JavaScript spread, but here it counts as an absent key.
- Locations.LocationService: tables are values, so object identity is not modelled. This covers the shallow copy in `updateLocation`, which shares the other couriers' record objects between old and new tables. It also covers `updateLocations` emitting its argument without copying: a caller that later mutates that object changes the current table without an emission, and the model cannot express that. `PublishedTablesAreNotMutated` therefore holds by construction.
- DeliveryPage.MapStatus: the table is a plain finite map, so prototype keys of a JavaScript `Record` (such as `constructor`) are not modelled.
- AdminPage.AdminComponent.OnDeliveriesLoaded: `Ok` always carries a response object. A null body, which HttpClient delivers for an empty 200 or 204 response, makes `response.usuarios` throw a TypeError in the source. The list is then not set and no toast is shown. The model does not express that case.
- AdminPage.AdminComponent.OnUnassignedPackagesLoaded: likewise, a null body makes `response.paquetes` throw a TypeError in the source, leaving the list unset with no toast. The model does not express that case.
- DeliveryPage.DeliveryComponent.OnPackagesLoaded: the response is the package list itself. The TypeError the source would raise on a response without `paquetes` is not modelled.
- Decimal.IntToString: ids are exact integers here, but JavaScript numbers are doubles. Ids beyond 2^53 (Number.MAX_SAFE_INTEGER) are held inexactly. JavaScript prints them as the shortest digits that give back the same double, padded with zeros (`${2**60}` is "1152921504606847000"), and from 10^21 up in exponent notation. The model renders the exact decimal instead, so it matches the source only for ids of magnitude at most 2^53. Fractional ids are not modelled.
- Location debouncing, push-versus-snapshot reconciliation, presence tracking and package lifecycle enforcement: none of them is implemented in the client code modelled here.
