/** The courier page (src/app/pages/delivery/delivery.component.ts): the status vocabulary, the
    gating of the deliver/cancel buttons, the decoration of loaded packages with their label, and
    the per-package "updating" flags. Socket.IO and geolocation are not part of this model. */
module DeliveryPage {
  import opened Wrappers
  import opened Toasts
  import PS = PackagesService

  /** Backend status codes and their Spanish display labels (`statusMap` in `mapStatus`). */
  const StatusLabels: map<string, string> :=
    map["pending" := "Pendiente", "in_transit" := "En camino",
        "delivered" := "Entregado", "cancelled" := "Cancelado"]

  /** `mapStatus`: the label of a known code; any other string is shown as it is. */
  function MapStatus(estatus: string): (shown: string)
    ensures estatus == "pending" ==> shown == "Pendiente"
    ensures estatus == "in_transit" ==> shown == "En camino"
    ensures estatus == "delivered" ==> shown == "Entregado"
    ensures estatus == "cancelled" ==> shown == "Cancelado"
    ensures estatus !in {"pending", "in_transit", "delivered", "cancelled"} ==> shown == estatus
  {
    if estatus in StatusLabels then StatusLabels[estatus] else estatus
  }

  /** `showActions`: the deliver and cancel buttons are offered for open packages only. */
  function ShowActions(estado: string): (shown: bool)
    ensures shown <==> estado in {"Pendiente", "En camino"}
  {
    estado == "Pendiente" || estado == "En camino"
  }

  /** `getStatusClass`: the CSS class of a label; only the two closed labels get one. */
  function GetStatusClass(estado: string): (cls: string)
    ensures cls == "status-delivered" <==> estado == "Entregado"
    ensures cls == "status-cancelled" <==> estado == "Cancelado"
    ensures cls == "" <==> estado != "Entregado" && estado != "Cancelado"
  {
    match estado
    case "Entregado" => "status-delivered"
    case "Cancelado" => "status-cancelled"
    case _ => ""
  }

  /** Buttons are offered exactly for packages whose code is pending or in transit, or whose
      status already arrives as one of those two labels (it then passes through unchanged). */
  lemma ShowActionsOfMapStatus(estatus: string)
    ensures ShowActions(MapStatus(estatus)) <==> estatus in {"pending", "in_transit", "Pendiente", "En camino"}
  {
  }

  /** The closed-package classes are given exactly to delivered and cancelled packages. */
  lemma StatusClassOfMapStatus(estatus: string)
    ensures GetStatusClass(MapStatus(estatus)) == "status-delivered" <==> estatus in {"delivered", "Entregado"}
    ensures GetStatusClass(MapStatus(estatus)) == "status-cancelled" <==> estatus in {"cancelled", "Cancelado"}
  {
  }

  /** A package with buttons never carries a closed-package class. */
  lemma ActionsOnlyWithoutClosedClass(estado: string)
    ensures ShowActions(estado) ==> GetStatusClass(estado) == ""
  {
  }

  /** No label is itself a code, so mapping a label again changes nothing. */
  lemma MapStatusIdempotent(estatus: string)
    ensures MapStatus(MapStatus(estatus)) == MapStatus(estatus)
  {
  }

  /** A loaded package as the page lists it: `{ ...p, estado: mapStatus(p.estatus) }`. */
  datatype Row = Row(pkg: PS.Package, estado: string)

  /** The `map` step of `loadPackages`: same length and order, every package kept, each labelled. */
  function Decorate(ps: seq<PS.Package>): (rows: seq<Row>)
    ensures |rows| == |ps|
    ensures forall i :: 0 <= i < |ps| ==> rows[i].pkg == ps[i] && rows[i].estado == MapStatus(ps[i].estatus)
  {
    if ps == [] then [] else [Row(ps[0], MapStatus(ps[0].estatus))] + Decorate(ps[1..])
  }

  /** The two status changes a courier can request. */
  datatype StatusAction = Deliver | Cancel

  /** The status code each action sends. */
  function StatusCode(action: StatusAction): string {
    match action
    case Deliver => "delivered"
    case Cancel => "cancelled"
  }

  function SuccessToast(action: StatusAction): Toast {
    match action
    case Deliver => Toast("success", "Paquete marcado como entregado")
    case Cancel => Toast("info", "Paquete marcado como cancelado")
  }

  const LoadErrorToast: Toast := Toast("error", "No se pudieron cargar los paquetes")
  const UpdateErrorToast: Toast := Toast("error", "No se pudo actualizar el estado del paquete")

  /** The page's state. Every method that sends `getPackages` takes the `Session` that local
      storage holds at that moment, as the service reads it afresh on each call. */
  class DeliveryComponent {
    var paquetes: seq<Row>
    var loading: bool
    var updatingStatus: map<int, bool>
    var messages: seq<Toast>

    constructor ()
      ensures paquetes == [] && loading && updatingStatus == map[] && messages == []
    {
      paquetes := [];
      loading := true;
      updatingStatus := map[];
      messages := [];
    }

    /** `loadPackages`, up to the subscription: shows the spinner and sends `getPackages`. */
    method LoadPackages(session: PS.Session) returns (req: PS.Request)
      modifies this`loading
      ensures loading
      ensures req == PS.GetPackages(session)
    {
      loading := true;
      req := PS.GetPackages(session);
    }

    /** The `next` and `error` handlers of `loadPackages`: on a response the list becomes the
        decorated packages; on an error the old list stays and an error toast is shown. Either way
        the spinner stops. */
    method OnPackagesLoaded(response: Result<seq<PS.Package>>)
      modifies this`paquetes, this`loading, this`messages
      ensures !loading
      ensures response.Ok? ==> paquetes == Decorate(response.value) && messages == old(messages)
      ensures response.Err? ==> paquetes == old(paquetes) && messages == old(messages) + [LoadErrorToast]
    {
      if response.Ok? {
        paquetes := Decorate(response.value);
      } else {
        messages := messages + [LoadErrorToast];
      }
      loading := false;
    }

    /** `entregarPaquete`, up to the subscription: flags the package and asks for `delivered`. */
    method EntregarPaquete(paquete: PS.Package) returns (req: PS.Request)
      modifies this`updatingStatus
      ensures updatingStatus == old(updatingStatus)[paquete.id := true]
      ensures req == PS.UpdatePackageStatus(paquete.id, StatusCode(Deliver))
    {
      updatingStatus := updatingStatus[paquete.id := true];
      req := PS.UpdatePackageStatus(paquete.id, StatusCode(Deliver));
    }

    /** `cancelarPaquete`, up to the subscription: flags the package and asks for `cancelled`. */
    method CancelarPaquete(paquete: PS.Package) returns (req: PS.Request)
      modifies this`updatingStatus
      ensures updatingStatus == old(updatingStatus)[paquete.id := true]
      ensures req == PS.UpdatePackageStatus(paquete.id, StatusCode(Cancel))
    {
      updatingStatus := updatingStatus[paquete.id := true];
      req := PS.UpdatePackageStatus(paquete.id, StatusCode(Cancel));
    }

    /** The handlers of a status update. A success runs `next` (toast, reload of the list) and then
        `complete`, which clears the flag of this package only; an error runs `error` alone, so the
        flag stays set. */
    method OnStatusUpdated(action: StatusAction, paquete: PS.Package, ok: bool, session: PS.Session) returns (reload: Option<PS.Request>)
      modifies this`updatingStatus, this`loading, this`messages
      ensures ok ==> messages == old(messages) + [SuccessToast(action)]
      ensures ok ==> loading && reload == Some(PS.GetPackages(session))
      ensures ok ==> updatingStatus == old(updatingStatus)[paquete.id := false]
      ensures !ok ==> messages == old(messages) + [UpdateErrorToast]
      ensures !ok ==> loading == old(loading) && reload == None && updatingStatus == old(updatingStatus)
    {
      if ok {
        messages := messages + [SuccessToast(action)];
        var req := LoadPackages(session);
        reload := Some(req);
        updatingStatus := updatingStatus[paquete.id := false];
      } else {
        messages := messages + [UpdateErrorToast];
        reload := None;
      }
    }
  }

  /** A delivery whose request fails leaves its package flagged as updating. */
  method FailedUpdateLeavesFlagSet(session: PS.Session, paquete: PS.Package) returns (stuck: bool)
    ensures stuck
  {
    var page := new DeliveryComponent();
    var req := page.EntregarPaquete(paquete);
    var reload := page.OnStatusUpdated(Deliver, paquete, false, session);
    stuck := page.updatingStatus[paquete.id];
  }

  /** Completing one package's cancellation clears its flag and no other package's. */
  method CompletionClearsOnlyItsFlag(session: PS.Session, p: PS.Package, q: PS.Package)
    returns (flags: map<int, bool>, sent: PS.Request)
    requires p.id != q.id
    ensures flags == map[p.id := false, q.id := true]
    ensures sent.body == PS.StatusBody("cancelled") && PS.ParseUrl(sent.url) == Some(PS.UpdatePackageStatusAt(p.id))
  {
    var page := new DeliveryComponent();
    sent := page.CancelarPaquete(p);
    assert sent == PS.UpdatePackageStatus(p.id, "cancelled");
    assert page.updatingStatus == map[p.id := true];
    var other := page.EntregarPaquete(q);
    assert page.updatingStatus == map[p.id := true, q.id := true];
    var reload := page.OnStatusUpdated(Cancel, p, true, session);
    flags := page.updatingStatus;
  }
}
