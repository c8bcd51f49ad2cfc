/** `LocationService` (src/app/services/location.service.ts): a table from delivery id to the last
    known position record of that courier, held in a BehaviorSubject. Every operation emits its
    new table through `next`. Tables are values here: the shallow copy of `updateLocation` and the
    argument that `updateLocations` emits without copying are not modelled as objects. */
module Locations {
  import opened Wrappers

  /** Latitude and longitude are floating-point numbers in the source; the model only stores and
      compares them, so they stand here as opaque integers. */
  type Coord = int

  /** A position record. `lat` and `lng` are always present; `username` and `state` are optional
      keys, `None` standing for a key the object does not have. */
  datatype Location = Location(lat: Coord, lng: Coord, username: Option<string>, state: Option<string>)

  type LocationMap = map<int, Location>

  function Get(m: LocationMap, id: int): Option<Location> {
    if id in m then Some(m[id]) else None
  }

  /** `{ ...prev, ...loc }`: every key `loc` has wins, every other key is kept from `prev`
      (spreading a missing `prev` contributes nothing). */
  function Merge(prev: Option<Location>, loc: Location): (r: Location)
    ensures r.lat == loc.lat && r.lng == loc.lng
    ensures loc.username.Some? ==> r.username == loc.username
    ensures loc.state.Some? ==> r.state == loc.state
    ensures prev.Some? && loc.username.None? ==> r.username == prev.value.username
    ensures prev.Some? && loc.state.None? ==> r.state == prev.value.state
    ensures prev.None? ==> r == loc
  {
    match prev
    case None => loc
    case Some(p) =>
      Location(loc.lat, loc.lng,
               if loc.username.Some? then loc.username else p.username,
               if loc.state.Some? then loc.state else p.state)
  }

  /** The table `updateLocation(id, loc)` publishes: `{ ...current, [id]: { ...current[id], ...loc } }`. */
  function Updated(m: LocationMap, id: int, loc: Location): (r: LocationMap)
    ensures r.Keys == m.Keys + {id}
    ensures r[id] == Merge(Get(m, id), loc)
    ensures forall k :: k in m && k != id ==> r[k] == m[k]
  {
    m[id := Merge(Get(m, id), loc)]
  }

  /** Every key the update supplies holds the supplied value afterwards. */
  lemma UpdateSetsSuppliedFields(m: LocationMap, id: int, loc: Location)
    ensures id in Updated(m, id, loc)
    ensures Updated(m, id, loc)[id].lat == loc.lat && Updated(m, id, loc)[id].lng == loc.lng
    ensures loc.username.Some? ==> Updated(m, id, loc)[id].username == loc.username
    ensures loc.state.Some? ==> Updated(m, id, loc)[id].state == loc.state
  {
  }

  /** Keys of the previous record that the update does not supply are retained. */
  lemma UpdateKeepsUnsuppliedFields(m: LocationMap, id: int, loc: Location)
    requires id in m
    ensures loc.username.None? ==> Updated(m, id, loc)[id].username == m[id].username
    ensures loc.state.None? ==> Updated(m, id, loc)[id].state == m[id].state
  {
  }

  /** A courier with no record gets exactly the supplied record. */
  lemma UpdateCreatesEntry(m: LocationMap, id: int, loc: Location)
    requires id !in m
    ensures Updated(m, id, loc) == m[id := loc]
  {
  }

  /** No other courier's record changes, and no key other than `id` appears or disappears. */
  lemma UpdateFrame(m: LocationMap, id: int, loc: Location, other: int)
    requires other != id
    ensures other in Updated(m, id, loc) <==> other in m
    ensures other in m ==> Updated(m, id, loc)[other] == m[other]
  {
  }

  lemma MergeIdempotent(prev: Option<Location>, loc: Location)
    ensures Merge(Some(Merge(prev, loc)), loc) == Merge(prev, loc)
  {
  }

  /** Applying the same update twice publishes the same table as applying it once. */
  lemma UpdateIdempotent(m: LocationMap, id: int, loc: Location)
    ensures Updated(Updated(m, id, loc), id, loc) == Updated(m, id, loc)
  {
  }

  /** The service: `current` is the BehaviorSubject's value, `published` every table it has emitted. */
  class LocationService {
    var current: LocationMap
    ghost var published: seq<LocationMap>

    ghost predicate Valid()
      reads this
    {
      |published| > 0 && published[|published| - 1] == current
    }

    /** The subject starts with the empty table. */
    constructor ()
      ensures Valid()
      ensures current == map[] && published == [map[]]
    {
      current := map[];
      published := [map[]];
    }

    /** `currentLocations`: the value a new subscriber receives first. */
    function CurrentLocations(): (m: LocationMap)
      reads this
      requires Valid()
      ensures m == published[|published| - 1]
    {
      current
    }

    /** `updateLocation`: merges `loc` into the record of `deliveryId` and publishes the result. */
    method UpdateLocation(deliveryId: int, loc: Location)
      requires Valid()
      modifies this
      ensures Valid()
      ensures current == Updated(old(current), deliveryId, loc)
      ensures published == old(published) + [current]
    {
      var before := current;
      current := Updated(before, deliveryId, loc);
      published := published + [current];
    }

    /** `updateLocations`: publishes `newLocations` as the whole table; records not in it are gone. */
    method UpdateLocations(newLocations: LocationMap)
      requires Valid()
      modifies this
      ensures Valid()
      ensures current == newLocations
      ensures published == old(published) + [newLocations]
    {
      current := newLocations;
      published := published + [current];
    }

    /** `clearLocations`: publishes the empty table. */
    method ClearLocations()
      requires Valid()
      modifies this
      ensures Valid()
      ensures current == map[]
      ensures published == old(published) + [map[]]
    {
      current := map[];
      published := published + [current];
    }
  }

  /** The history of emitted tables only grows: after a second update and a clear, the table the
      first update emitted is still recorded as it was. */
  method PublishedTablesAreNotMutated(id: int, loc: Location, other: int, loc2: Location)
    returns (first: LocationMap, ghost firstAfter: LocationMap)
    ensures first == firstAfter
    ensures first == map[id := loc]
  {
    var service := new LocationService();
    service.UpdateLocation(id, loc);
    first := service.CurrentLocations();
    ghost var n := |service.published|;
    service.UpdateLocation(other, loc2);
    service.ClearLocations();
    firstAfter := service.published[n - 1];
  }
}
