/** The operator console (src/app/pages/admin/admin.component.ts): the two label-to-severity
    tables, the couriers and packages lists, the add-package form and the assignment dialog. */
module AdminPage {
  import opened Wrappers
  import opened Toasts
  import PS = PackagesService
  import DeliveryPage

  /** A courier as the console lists it. */
  datatype Delivery = Delivery(id: int, username: string, state: string)

  /** The bodies of the two list responses; either list may be missing. */
  datatype DeliveriesResponse = DeliveriesResponse(usuarios: Option<seq<Delivery>>)
  datatype PackagesResponse = PackagesResponse(paquetes: Option<seq<PS.Package>>)

  /** `getStatusSeverity`: the tag colour of a package label; unknown labels get `info`. */
  function GetStatusSeverity(status: string): (severity: string)
    ensures severity == "warning" <==> status == "En espera"
    ensures severity == "success" <==> status == "Entregado"
    ensures severity == "danger" <==> status == "Cancelado"
    ensures severity == "info" <==> status != "En espera" && status != "Entregado" && status != "Cancelado"
  {
    match status
    case "En espera" => "warning"
    case "En camino" => "info"
    case "Entregado" => "success"
    case "Cancelado" => "danger"
    case _ => "info"
  }

  /** `getDeliveryStatusSeverity`: the tag colour of a courier's availability; unknown states get `info`. */
  function GetDeliveryStatusSeverity(status: string): (severity: string)
    ensures severity == "success" <==> status == "Disponible"
    ensures severity == "warning" <==> status == "Ocupado"
    ensures severity == "danger" <==> status == "Inactivo"
    ensures severity == "info" <==> status != "Disponible" && status != "Ocupado" && status != "Inactivo"
  {
    match status
    case "Disponible" => "success"
    case "Ocupado" => "warning"
    case "Inactivo" => "danger"
    case _ => "info"
  }

  /** A fact about the two vocabularies (no page composes them): the admin table colours `warning`
      only the label `En espera`, and the courier page's `mapStatus` yields it only from that very
      string, never from a backend code. */
  lemma WarningOnlyForLiteralEnEspera(estatus: string)
    ensures GetStatusSeverity(DeliveryPage.MapStatus(estatus)) == "warning" <==> estatus == "En espera"
  {
  }

  const AddressRequiredToast: Toast := Toast("warn", "La dirección es requerida")
  const PackageAddedToast: Toast := Toast("success", "Paquete añadido correctamente")
  const AddErrorToast: Toast := Toast("error", "No se pudo añadir el paquete")
  const PackageAssignedToast: Toast := Toast("success", "Paquete asignado correctamente")
  const AssignErrorToast: Toast := Toast("error", "No se pudo asignar el paquete")
  const DeliveriesErrorToast: Toast := Toast("error", "No se pudieron cargar los repartidores")
  const PackagesErrorToast: Toast := Toast("error", "No se pudieron cargar los paquetes")

  /** The console's state. Every method that sends `getPackages` takes the `Session` that local
      storage holds at that moment, as the service reads it afresh on each call. */
  class AdminComponent {
    var deliverys: seq<Delivery>
    var unassignedPackages: seq<PS.Package>
    var selectedDelivery: Option<Delivery>
    var displayAddPackageDialog: bool
    var displayAssignDialog: bool
    var newPackage: PS.NewPackage
    var messages: seq<Toast>

    constructor ()
      ensures deliverys == [] && unassignedPackages == [] && selectedDelivery == None
      ensures !displayAddPackageDialog && !displayAssignDialog
      ensures newPackage == PS.NewPackage("") && messages == []
    {
      deliverys := [];
      unassignedPackages := [];
      selectedDelivery := None;
      displayAddPackageDialog := false;
      displayAssignDialog := false;
      newPackage := PS.NewPackage("");
      messages := [];
    }

    /** The handlers of `loadDeliveries`: a response without `usuarios` yields the empty list. */
    method OnDeliveriesLoaded(response: Result<DeliveriesResponse>)
      modifies this`deliverys, this`messages
      ensures response.Ok? && response.value.usuarios.Some? ==> deliverys == response.value.usuarios.value
      ensures response.Ok? && response.value.usuarios.None? ==> deliverys == []
      ensures response.Ok? ==> messages == old(messages)
      ensures response.Err? ==> deliverys == old(deliverys) && messages == old(messages) + [DeliveriesErrorToast]
    {
      if response.Ok? {
        deliverys := response.value.usuarios.GetOr([]);
      } else {
        messages := messages + [DeliveriesErrorToast];
      }
    }

    /** `loadUnassignedPackages`, up to the subscription: sends `getPackages`. */
    method LoadUnassignedPackages(session: PS.Session) returns (req: PS.Request)
      ensures req == PS.GetPackages(session)
    {
      req := PS.GetPackages(session);
    }

    /** The handlers of `loadUnassignedPackages`: a response without `paquetes` yields the empty list. */
    method OnUnassignedPackagesLoaded(response: Result<PackagesResponse>)
      modifies this`unassignedPackages, this`messages
      ensures response.Ok? && response.value.paquetes.Some? ==> unassignedPackages == response.value.paquetes.value
      ensures response.Ok? && response.value.paquetes.None? ==> unassignedPackages == []
      ensures response.Ok? ==> messages == old(messages)
      ensures response.Err? ==> unassignedPackages == old(unassignedPackages) && messages == old(messages) + [PackagesErrorToast]
    {
      if response.Ok? {
        unassignedPackages := response.value.paquetes.GetOr([]);
      } else {
        messages := messages + [PackagesErrorToast];
      }
    }

    method ShowAddPackageDialog()
      modifies this`displayAddPackageDialog
      ensures displayAddPackageDialog
    {
      displayAddPackageDialog := true;
    }

    /** `addPackage`, up to the subscription: an empty address only raises a warning; any other
        address is posted as it stands. */
    method AddPackage() returns (req: Option<PS.Request>)
      modifies this`messages
      ensures newPackage.direccion == "" ==> req == None && messages == old(messages) + [AddressRequiredToast]
      ensures newPackage.direccion != "" ==> req == Some(PS.AddPackage(newPackage)) && messages == old(messages)
    {
      if newPackage.direccion == "" {
        messages := messages + [AddressRequiredToast];
        req := None;
        return;
      }
      req := Some(PS.AddPackage(newPackage));
    }

    /** The handlers of `addPackage`: a success closes the dialog, empties the form and reloads the
        packages; an error only shows a toast. */
    method OnPackageAdded(ok: bool, session: PS.Session) returns (reload: Option<PS.Request>)
      modifies this`messages, this`displayAddPackageDialog, this`newPackage
      ensures ok ==> messages == old(messages) + [PackageAddedToast]
      ensures ok ==> !displayAddPackageDialog && newPackage == PS.NewPackage("")
      ensures ok ==> reload == Some(PS.GetPackages(session))
      ensures !ok ==> messages == old(messages) + [AddErrorToast] && reload == None
      ensures !ok ==> displayAddPackageDialog == old(displayAddPackageDialog) && newPackage == old(newPackage)
    {
      if ok {
        messages := messages + [PackageAddedToast];
        displayAddPackageDialog := false;
        newPackage := PS.NewPackage("");
        var req := LoadUnassignedPackages(session);
        reload := Some(req);
      } else {
        messages := messages + [AddErrorToast];
        reload := None;
      }
    }

    /** `showAssignDialog`: remembers the courier, reloads the packages and opens the dialog. */
    method ShowAssignDialog(delivery: Delivery, session: PS.Session) returns (req: PS.Request)
      modifies this`selectedDelivery, this`displayAssignDialog
      ensures selectedDelivery == Some(delivery) && displayAssignDialog
      ensures req == PS.GetPackages(session)
    {
      selectedDelivery := Some(delivery);
      req := LoadUnassignedPackages(session);
      displayAssignDialog := true;
    }

    /** `assignPackage`, up to the subscription: nothing is sent without a selected courier;
        otherwise the package is assigned to that courier. */
    method AssignPackage(packageId: int) returns (req: Option<PS.Request>)
      ensures selectedDelivery.None? ==> req == None
      ensures selectedDelivery.Some? ==> req == Some(PS.AssignPackage(packageId, selectedDelivery.value.id))
    {
      if selectedDelivery.None? {
        return None;
      }
      req := Some(PS.AssignPackage(packageId, selectedDelivery.value.id));
    }

    /** The handlers of `assignPackage`: a success closes the dialog, forgets the courier and
        reloads the packages; an error only shows a toast. */
    method OnPackageAssigned(ok: bool, session: PS.Session) returns (reload: Option<PS.Request>)
      modifies this`messages, this`displayAssignDialog, this`selectedDelivery
      ensures ok ==> messages == old(messages) + [PackageAssignedToast]
      ensures ok ==> !displayAssignDialog && selectedDelivery == None
      ensures ok ==> reload == Some(PS.GetPackages(session))
      ensures !ok ==> messages == old(messages) + [AssignErrorToast] && reload == None
      ensures !ok ==> displayAssignDialog == old(displayAssignDialog) && selectedDelivery == old(selectedDelivery)
    {
      if ok {
        messages := messages + [PackageAssignedToast];
        displayAssignDialog := false;
        selectedDelivery := None;
        var req := LoadUnassignedPackages(session);
        reload := Some(req);
      } else {
        messages := messages + [AssignErrorToast];
        reload := None;
      }
    }
  }

  /** Submitting the form with no address warns and sends nothing. */
  method EmptyAddressSendsNothing() returns (sent: Option<PS.Request>, warnings: seq<Toast>)
    ensures sent == None && warnings == [AddressRequiredToast]
  {
    var page := new AdminComponent();
    page.ShowAddPackageDialog();
    sent := page.AddPackage();
    warnings := page.messages;
  }

  /** Picking a courier, assigning a package and receiving a success: the request names that
      package and that courier, and the dialog ends closed with no courier selected. */
  method AssignmentRoundTrip(session: PS.Session, delivery: Delivery, packageId: int)
    returns (sent: Option<PS.Request>, open: bool, selected: Option<Delivery>, again: Option<PS.Request>)
    ensures sent.Some? && PS.ParseUrl(sent.value.url) == Some(PS.AssignPackageAt(packageId))
    ensures sent.value.body == PS.DeliveryIdBody(delivery.id)
    ensures !open && selected == None
    ensures again == None
  {
    var page := new AdminComponent();
    var load := page.ShowAssignDialog(delivery, session);
    sent := page.AssignPackage(packageId);
    var reload := page.OnPackageAssigned(true, session);
    open, selected := page.displayAssignDialog, page.selectedDelivery;
    again := page.AssignPackage(packageId);
  }
}
