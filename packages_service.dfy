/** Request construction of `PackagesService` (src/app/services/package.service.ts): every method
    only computes an HTTP verb, a URL and a body from its arguments and, for `getPackages`, from the
    role and user id kept in the browser's local storage. The HTTP client itself is not modelled. */
module PackagesService {
  import opened Wrappers
  import Decimal

  const ApiUrl: string := "http://localhost:3000"

  /** A package as the backend reports it. */
  datatype Package = Package(id: int, direccion: string, estatus: string, deliveryid: Option<int>)

  /** The payload of `addPackage`. */
  datatype NewPackage = NewPackage(direccion: string)

  /** What `getPackages` reads from local storage (`getItem` gives null for a missing key). */
  datatype Session = Session(userId: Option<string>, userRole: Option<string>)

  datatype Verb = Get | Post | Put

  datatype Body =
    | NoBody
    | NewPackageBody(data: NewPackage)      // the `addPackage` argument, sent as it is
    | DeliveryIdBody(delivery_id: int)      // `{ delivery_id: deliveryId }`
    | StatusBody(estatus: string)           // `{ estatus: newStatus }`

  datatype Request = Request(verb: Verb, url: string, body: Body)

  /** The backend resources the client addresses. */
  datatype Endpoint =
    | AllPackages
    | PackagesOf(userId: string)
    | AddPackages
    | AssignPackageAt(packageId: int)
    | UpdatePackageStatusAt(packageId: int)

  predicate HasPrefix(s: string, p: string) {
    |p| <= |s| && s[..|p|] == p
  }

  /** Reads a URL back as the endpoint it addresses; the inverse of the URLs built below. */
  function ParseUrl(url: string): Option<Endpoint> {
    if !HasPrefix(url, ApiUrl) then None
    else
      var path := url[|ApiUrl|..];
      if path == "/packages" then Some(AllPackages)
      else if path == "/addPackages" then Some(AddPackages)
      else if HasPrefix(path, "/packages/delivery/") then
        Some(PackagesOf(path[|"/packages/delivery/"|..]))
      else if HasPrefix(path, "/assignPackage/") then
        match Decimal.ParseInt(path[|"/assignPackage/"|..])
        case Some(p) => Some(AssignPackageAt(p))
        case None => None
      else if HasPrefix(path, "/updatePackageStatus/") then
        match Decimal.ParseInt(path[|"/updatePackageStatus/"|..])
        case Some(p) => Some(UpdatePackageStatusAt(p))
        case None => None
      else None
  }

  /** The rule of `getPackages`: a courier with a non-empty stored user id sees only their own packages. */
  predicate OnlyOwnPackages(s: Session) {
    s.userRole == Some("delivery") && s.userId.Some? && s.userId.value != ""
  }

  lemma ApiUrlPrefix(rest: string)
    ensures HasPrefix(ApiUrl + rest, ApiUrl) && (ApiUrl + rest)[|ApiUrl|..] == rest
  {
  }

  lemma ParseAllPackagesUrl()
    ensures ParseUrl(ApiUrl + "/packages") == Some(AllPackages)
  {
    ApiUrlPrefix("/packages");
  }

  lemma ParseAddPackagesUrl()
    ensures ParseUrl(ApiUrl + "/addPackages") == Some(AddPackages)
  {
    ApiUrlPrefix("/addPackages");
  }

  lemma ParsePackagesOfUrl(userId: string)
    ensures ParseUrl(ApiUrl + "/packages/delivery/" + userId) == Some(PackagesOf(userId))
  {
  }

  lemma ParseAssignPackageUrl(packageId: int)
    ensures ParseUrl(ApiUrl + "/assignPackage/" + Decimal.IntToString(packageId)) == Some(AssignPackageAt(packageId))
  {
    var digits := Decimal.IntToString(packageId);
    var path := "/assignPackage/" + digits;
    assert ApiUrl + "/assignPackage/" + digits == ApiUrl + path;
    ApiUrlPrefix(path);
    assert path[1] != "/packages"[1] && path[2] != "/addPackages"[2];
    assert path[1] != "/packages/delivery/"[1];
    assert path[..|"/assignPackage/"|] == "/assignPackage/";
    assert path[|"/assignPackage/"|..] == digits;
    Decimal.ParseIntOfIntToString(packageId);
  }

  lemma ParseUpdatePackageStatusUrl(packageId: int)
    ensures ParseUrl(ApiUrl + "/updatePackageStatus/" + Decimal.IntToString(packageId)) == Some(UpdatePackageStatusAt(packageId))
  {
    var digits := Decimal.IntToString(packageId);
    var path := "/updatePackageStatus/" + digits;
    assert ApiUrl + "/updatePackageStatus/" + digits == ApiUrl + path;
    ApiUrlPrefix(path);
    assert path[1] != "/packages"[1] && path[1] != "/addPackages"[1];
    assert path[1] != "/packages/delivery/"[1] && path[1] != "/assignPackage/"[1];
    assert path[..|"/updatePackageStatus/"|] == "/updatePackageStatus/";
    assert path[|"/updatePackageStatus/"|..] == digits;
    Decimal.ParseIntOfIntToString(packageId);
  }

  /** The only URL read as the assignment endpoint of `packageId` is the one `assignPackage` builds. */
  lemma AssignPackageUrlIsUnique(url: string, packageId: int)
    requires ParseUrl(url) == Some(AssignPackageAt(packageId))
    ensures url == ApiUrl + "/assignPackage/" + Decimal.IntToString(packageId)
  {
    assert HasPrefix(url, ApiUrl);
    var path := url[|ApiUrl|..];
    assert path != "/packages" && path != "/addPackages";
    assert !HasPrefix(path, "/packages/delivery/");
    assert HasPrefix(path, "/assignPackage/");
    var digits := path[|"/assignPackage/"|..];
    assert Decimal.ParseInt(digits) == Some(packageId);
    Decimal.IntToStringOfParseInt(digits, packageId);
    assert path == "/assignPackage/" + digits;
    assert url == ApiUrl + path;
  }

  /** The only URL read as the status endpoint of `packageId` is the one `updatePackageStatus` builds. */
  lemma UpdatePackageStatusUrlIsUnique(url: string, packageId: int)
    requires ParseUrl(url) == Some(UpdatePackageStatusAt(packageId))
    ensures url == ApiUrl + "/updatePackageStatus/" + Decimal.IntToString(packageId)
  {
    assert HasPrefix(url, ApiUrl);
    var path := url[|ApiUrl|..];
    assert path != "/packages" && path != "/addPackages";
    assert !HasPrefix(path, "/packages/delivery/");
    assert !HasPrefix(path, "/assignPackage/");
    assert HasPrefix(path, "/updatePackageStatus/");
    var digits := path[|"/updatePackageStatus/"|..];
    assert Decimal.ParseInt(digits) == Some(packageId);
    Decimal.IntToStringOfParseInt(digits, packageId);
    assert path == "/updatePackageStatus/" + digits;
    assert url == ApiUrl + path;
  }

  /** `getPackages`: a GET of the caller's own packages for a courier session, of all packages otherwise. */
  function GetPackages(s: Session): (r: Request)
    ensures r.verb == Get && r.body == NoBody
    ensures OnlyOwnPackages(s) ==> ParseUrl(r.url) == Some(PackagesOf(s.userId.value))
    ensures !OnlyOwnPackages(s) ==> ParseUrl(r.url) == Some(AllPackages)
  {
    if s.userRole == Some("delivery") && s.userId.Some? && s.userId.value != "" then
      ParsePackagesOfUrl(s.userId.value);
      Request(Get, ApiUrl + "/packages/delivery/" + s.userId.value, NoBody)
    else
      ParseAllPackagesUrl();
      Request(Get, ApiUrl + "/packages", NoBody)
  }

  /** `addPackage`: a POST to the add endpoint carrying the package data unchanged. */
  function AddPackage(data: NewPackage): (r: Request)
    ensures r.verb == Post && r.body.NewPackageBody? && r.body.data == data
    ensures ParseUrl(r.url) == Some(AddPackages)
  {
    ParseAddPackagesUrl();
    Request(Post, ApiUrl + "/addPackages", NewPackageBody(data))
  }

  /** `assignPackage`: a PUT addressed to the package, naming the courier in the body. */
  function AssignPackage(packageId: int, deliveryId: int): (r: Request)
    ensures r.verb == Put && r.body.DeliveryIdBody? && r.body.delivery_id == deliveryId
    ensures ParseUrl(r.url) == Some(AssignPackageAt(packageId))
  {
    ParseAssignPackageUrl(packageId);
    Request(Put, ApiUrl + "/assignPackage/" + Decimal.IntToString(packageId), DeliveryIdBody(deliveryId))
  }

  /** `getAssignedPackages`: a GET of the packages of the given courier. */
  function GetAssignedPackages(deliveryId: int): (r: Request)
    ensures r.verb == Get && r.body == NoBody
    ensures ParseUrl(r.url) == Some(PackagesOf(Decimal.IntToString(deliveryId)))
  {
    ParsePackagesOfUrl(Decimal.IntToString(deliveryId));
    Request(Get, ApiUrl + "/packages/delivery/" + Decimal.IntToString(deliveryId), NoBody)
  }

  /** `updatePackageStatus`: a PUT addressed to the package, with the status string passed through. */
  function UpdatePackageStatus(packageId: int, newStatus: string): (r: Request)
    ensures r.verb == Put && r.body.StatusBody? && r.body.estatus == newStatus
    ensures ParseUrl(r.url) == Some(UpdatePackageStatusAt(packageId))
  {
    ParseUpdatePackageStatusUrl(packageId);
    Request(Put, ApiUrl + "/updatePackageStatus/" + Decimal.IntToString(packageId), StatusBody(newStatus))
  }

  /** `getAssignedPackages(id)` is exactly the request `getPackages` sends for a courier whose stored id is `id`. */
  lemma AssignedPackagesIsCourierBranch(deliveryId: int)
    ensures GetAssignedPackages(deliveryId) == GetPackages(Session(Some(Decimal.IntToString(deliveryId)), Some("delivery")))
  {
  }

  /** Different packages or couriers never produce the same assignment request. */
  lemma AssignPackageInjective(p1: int, d1: int, p2: int, d2: int)
    ensures AssignPackage(p1, d1) == AssignPackage(p2, d2) ==> p1 == p2 && d1 == d2
  {
  }

  /** Status updates of different packages never address the same URL. */
  lemma UpdatePackageStatusTargetsOnePackage(p1: int, p2: int, s1: string, s2: string)
    ensures UpdatePackageStatus(p1, s1).url == UpdatePackageStatus(p2, s2).url ==> p1 == p2
  {
  }
}
