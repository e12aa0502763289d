/** Locations and the charge points assigned to them (service/management/locationService.js over
    model/management/Location.js and model/ocpp/ChargePoint.js). Documents are addressed by
    their storage key `oid`; a location also carries its own unique `id` string. */
module Locations {
  import opened Common
  import opened Collections

  datatype Location = Location(
    oid: nat,
    id: string,
    name: string,
    address: string,
    latitude: Option<real>,
    longitude: Option<real>,
    description: Option<string>,
    createdAt: int,
    updatedAt: int)

  /** The data handed to `createLocation` or `updateLocation`; `None` is a key not given. */
  datatype LocationFields = LocationFields(
    id: Option<string>,
    name: Option<string>,
    address: Option<string>,
    latitude: Option<real>,
    longitude: Option<real>,
    description: Option<string>)

  /** A charge point document, reduced to its key, its identity, its name and its location. */
  datatype ChargePoint = ChargePoint(oid: nat, chargePointId: string, name: Option<string>, locationId: Option<nat>)

  datatype LocationError =
    | NameTaken(name: string)
    | LocationValidationFailed
    | DuplicateId(id: string)
    | ChargePointNotFound(chargePointOid: nat)
    | LocationNotFound(locationOid: nat)

  predicate NameUsed(ls: seq<Location>, name: string)
  {
    exists k :: 0 <= k < |ls| && ls[k].name == name
  }

  predicate IdUsed(ls: seq<Location>, id: string)
  {
    exists k :: 0 <= k < |ls| && ls[k].id == id
  }

  /** The schema's required strings: id, name and address given and not empty. */
  function ValidNewLocation(d: LocationFields): (r: bool)
    ensures d.id.None? || d.name.None? || d.address.None? ==> !r
    ensures d.id == Some([]) || d.name == Some([]) || d.address == Some([]) ==> !r
  {
    d.id.Some? && d.id.value != [] && d.name.Some? && d.name.value != [] && d.address.Some? && d.address.value != []
  }

  /** A location after the supplied fields of an update, stamped `now`. */
  function Updated(l: Location, f: LocationFields, now: int): (r: Location)
    ensures r.oid == l.oid && r.createdAt == l.createdAt && r.updatedAt == now
    ensures r.id == f.id.GetOr(l.id) && r.name == f.name.GetOr(l.name) && r.address == f.address.GetOr(l.address)
    ensures r.latitude == (if f.latitude.Some? then f.latitude else l.latitude)
    ensures r.longitude == (if f.longitude.Some? then f.longitude else l.longitude)
    ensures r.description == (if f.description.Some? then f.description else l.description)
  {
    Location(l.oid, f.id.GetOr(l.id), f.name.GetOr(l.name), f.address.GetOr(l.address),
             if f.latitude.Some? then f.latitude else l.latitude,
             if f.longitude.Some? then f.longitude else l.longitude,
             if f.description.Some? then f.description else l.description,
             l.createdAt, now)
  }

  /** An update with no fields only moves `updatedAt`. */
  lemma EmptyUpdateOnlyStamps(l: Location, now: int)
    ensures Updated(l, LocationFields(None, None, None, None, None, None), now) == l.(updatedAt := now)
  {
  }

  function LocationIndex(ls: seq<Location>, oid: nat): (k: nat)
    ensures k <= |ls| && (k < |ls| ==> ls[k].oid == oid)
    ensures k == |ls| <==> forall j :: 0 <= j < |ls| ==> ls[j].oid != oid
  {
    FirstIndex(ls, (l: Location) => l.oid == oid)
  }

  function ChargePointIndex(cps: seq<ChargePoint>, oid: nat): (k: nat)
    ensures k <= |cps| && (k < |cps| ==> cps[k].oid == oid)
    ensures k == |cps| <==> forall j :: 0 <= j < |cps| ==> cps[j].oid != oid
  {
    FirstIndex(cps, (cp: ChargePoint) => cp.oid == oid)
  }

  /** The charge points with their reference to location `oid` removed (`$unset`). */
  function Unassigned(cps: seq<ChargePoint>, oid: nat): (r: seq<ChargePoint>)
    ensures |r| == |cps|
    ensures forall k :: 0 <= k < |r| ==> r[k].locationId != Some(oid)
    ensures forall k :: 0 <= k < |r| ==> r[k] == (if cps[k].locationId == Some(oid) then cps[k].(locationId := None) else cps[k])
  {
    seq(|cps|, k requires 0 <= k < |cps| => if cps[k].locationId == Some(oid) then cps[k].(locationId := None) else cps[k])
  }

  predicate AtLocation(cp: ChargePoint, locationOid: nat)
  {
    cp.locationId == Some(locationOid)
  }

  /** `getChargePointsByLocation`: the charge points assigned to the location, in store order. */
  function ChargePointsAt(cps: seq<ChargePoint>, locationOid: nat): (r: seq<ChargePoint>)
    ensures forall k :: 0 <= k < |r| ==> r[k] in cps && r[k].locationId == Some(locationOid)
    ensures forall k :: 0 <= k < |cps| && cps[k].locationId == Some(locationOid) ==> cps[k] in r
  {
    Filter(cps, cp => AtLocation(cp, locationOid))
  }

  /** After the unassignment nothing is listed at the location. */
  lemma {:induction false} NothingAtUnassigned(cps: seq<ChargePoint>, oid: nat)
    ensures ChargePointsAt(Unassigned(cps, oid), oid) == []
  {
    if cps != [] {
      var u := Unassigned(cps, oid);
      assert u[1..] == Unassigned(cps[1..], oid);
      NothingAtUnassigned(cps[1..], oid);
      assert !AtLocation(u[0], oid);
    }
  }

  /** `updateChargePointLocation` on the stored charge points, or the error it throws. */
  function Assign(cps: seq<ChargePoint>, ls: seq<Location>, chargePointOid: nat, locationOid: Option<nat>)
    : (r: Result<seq<ChargePoint>, LocationError>)
    ensures ChargePointIndex(cps, chargePointOid) == |cps| ==> r == Err(ChargePointNotFound(chargePointOid))
    ensures ChargePointIndex(cps, chargePointOid) < |cps| && locationOid.Some? && LocationIndex(ls, locationOid.value) == |ls|
            ==> r == Err(LocationNotFound(locationOid.value))
    ensures r.Ok? ==> |r.value| == |cps|
    ensures r.Ok? ==> var k := ChargePointIndex(cps, chargePointOid);
                      r.value[k] == cps[k].(locationId := locationOid)
                      && forall j :: 0 <= j < |cps| && j != k ==> r.value[j] == cps[j]
  {
    var k := ChargePointIndex(cps, chargePointOid);
    if k == |cps| then Err(ChargePointNotFound(chargePointOid))
    else if locationOid.Some? && LocationIndex(ls, locationOid.value) == |ls| then Err(LocationNotFound(locationOid.value))
    else Ok(cps[k := cps[k].(locationId := locationOid)])
  }

  /** A charge point assigned to a location is listed there, and only there. */
  lemma AssignedIsListed(cps: seq<ChargePoint>, ls: seq<Location>, chargePointOid: nat, locationOid: nat, other: nat)
    requires Assign(cps, ls, chargePointOid, Some(locationOid)).Ok?
    ensures var after := Assign(cps, ls, chargePointOid, Some(locationOid)).value;
            var k := ChargePointIndex(cps, chargePointOid);
            after[k] in ChargePointsAt(after, locationOid)
            && (other != locationOid ==> after[k] !in ChargePointsAt(after, other))
  {
  }

  class LocationStore {
    var locations: seq<Location>
    var chargePoints: seq<ChargePoint>
    var nextOid: nat

    ghost predicate Valid()
      reads this
    {
      forall k :: 0 <= k < |locations| ==> locations[k].oid < nextOid
    }

    constructor (chargePoints: seq<ChargePoint>)
      ensures Valid() && locations == [] && this.chargePoints == chargePoints
    {
      locations := [];
      this.chargePoints := chargePoints;
      nextOid := 0;
    }

    /** `createLocation`: a taken name is refused first, then the schema validates, then the
        unique `id` index refuses a taken id; otherwise the location is appended. */
    method CreateLocation(d: LocationFields, now: int) returns (r: Result<Location, LocationError>)
      requires Valid()
      modifies this
      ensures Valid() && chargePoints == old(chargePoints)
      ensures d.name.Some? && NameUsed(old(locations), d.name.value) ==> r == Err(NameTaken(d.name.value))
      ensures !(d.name.Some? && NameUsed(old(locations), d.name.value)) && !ValidNewLocation(d)
              ==> r == Err(LocationValidationFailed)
      ensures !(d.name.Some? && NameUsed(old(locations), d.name.value)) && ValidNewLocation(d)
              ==> (IdUsed(old(locations), d.id.value) ==> r == Err(DuplicateId(d.id.value)))
      ensures r.Ok? <==> !(d.name.Some? && NameUsed(old(locations), d.name.value)) && ValidNewLocation(d)
                         && !IdUsed(old(locations), d.id.value)
      ensures r.Ok? ==> r.value == Location(old(nextOid), d.id.value, d.name.value, d.address.value, d.latitude,
                                            d.longitude, d.description, now, now)
                        && locations == old(locations) + [r.value]
      ensures r.Err? ==> locations == old(locations)
    {
      if d.name.Some? && NameUsed(locations, d.name.value) {
        return Err(NameTaken(d.name.value));
      }
      if !ValidNewLocation(d) {
        return Err(LocationValidationFailed);
      }
      if IdUsed(locations, d.id.value) {
        return Err(DuplicateId(d.id.value));
      }
      var l := Location(nextOid, d.id.value, d.name.value, d.address.value, d.latitude, d.longitude, d.description,
                        now, now);
      locations := locations + [l];
      nextOid := nextOid + 1;
      return Ok(l);
    }

    /** `updateLocation`: the supplied fields and a fresh `updatedAt`; no validation runs, and
        an unknown key gives null. A new `id` taken by another location is refused by the
        unique index. */
    method UpdateLocation(oid: nat, f: LocationFields, now: int) returns (r: Result<Option<Location>, LocationError>)
      requires Valid()
      modifies this
      ensures Valid() && chargePoints == old(chargePoints) && |locations| == |old(locations)|
      ensures var k := LocationIndex(old(locations), oid);
              if k == |old(locations)| then r == Ok(None) && locations == old(locations)
              else if f.id.Some? && exists j :: 0 <= j < |old(locations)| && j != k && old(locations)[j].id == f.id.value
              then r == Err(DuplicateId(f.id.value)) && locations == old(locations)
              else r == Ok(Some(Updated(old(locations)[k], f, now)))
                   && locations == old(locations)[k := Updated(old(locations)[k], f, now)]
    {
      var k := LocationIndex(locations, oid);
      if k == |locations| {
        return Ok(None);
      }
      if f.id.Some? && exists j :: 0 <= j < |locations| && j != k && locations[j].id == f.id.value {
        return Err(DuplicateId(f.id.value));
      }
      var l := Updated(locations[k], f, now);
      locations := locations[k := l];
      return Ok(Some(l));
    }

    /** `deleteLocation`: every charge point loses its reference to the location (even when
        the location does not exist), then the location is removed and returned. */
    method DeleteLocation(oid: nat) returns (r: Option<Location>)
      requires Valid()
      modifies this
      ensures Valid()
      ensures chargePoints == Unassigned(old(chargePoints), oid)
      ensures ChargePointsAt(chargePoints, oid) == []
      ensures var k := LocationIndex(old(locations), oid);
              if k == |old(locations)| then r.None? && locations == old(locations)
              else r == Some(old(locations)[k]) && locations == old(locations)[..k] + old(locations)[k + 1..]
    {
      var i := 0;
      ghost var before := chargePoints;
      while i < |chargePoints|
        invariant 0 <= i <= |chargePoints| == |before|
        invariant forall j :: 0 <= j < i ==> chargePoints[j] == Unassigned(before, oid)[j]
        invariant forall j :: i <= j < |chargePoints| ==> chargePoints[j] == before[j]
        invariant locations == old(locations) && nextOid == old(nextOid)
      {
        if chargePoints[i].locationId == Some(oid) {
          chargePoints := chargePoints[i := chargePoints[i].(locationId := None)];
        }
        i := i + 1;
      }
      assert chargePoints == Unassigned(before, oid);
      NothingAtUnassigned(before, oid);
      var k := LocationIndex(locations, oid);
      if k == |locations| {
        return None;
      }
      r := Some(locations[k]);
      locations := locations[..k] + locations[k + 1..];
    }

    /** `updateChargePointLocation`: sets the charge point's location, or throws. */
    method UpdateChargePointLocation(chargePointOid: nat, locationOid: Option<nat>) returns (r: Result<ChargePoint, LocationError>)
      requires Valid()
      modifies this
      ensures Valid() && locations == old(locations)
      ensures var a := Assign(old(chargePoints), old(locations), chargePointOid, locationOid);
              if a.Ok? then r.Ok? && chargePoints == a.value
                            && r.value == chargePoints[ChargePointIndex(old(chargePoints), chargePointOid)]
              else r == Err(a.error) && chargePoints == old(chargePoints)
    {
      var a := Assign(chargePoints, locations, chargePointOid, locationOid);
      if a.Err? {
        return Err(a.error);
      }
      var k := ChargePointIndex(chargePoints, chargePointOid);
      chargePoints := a.value;
      return Ok(chargePoints[k]);
    }
  }

  // ---------------------------------------------------------------------------------------
  // The schema as written

  /** What saving keeps of a charge point under model/ocpp/ChargePoint.js, whose schema does
      not declare `locationId`: a strict schema drops the undeclared path. */
  function PersistAsWritten(cp: ChargePoint): (r: ChargePoint)
    ensures r.oid == cp.oid && r.chargePointId == cp.chargePointId && r.name == cp.name
    ensures r.locationId.None?
  {
    cp.(locationId := None)
  }

  /** Under that schema an assignment that succeeds is lost on save: once the assigned charge
      point is stored as `PersistAsWritten` keeps it, the location's listing is the one the store
      would give had the charge point been unassigned, so the charge point is not listed there. */
  lemma AssignmentLostAsWritten(cps: seq<ChargePoint>, ls: seq<Location>, chargePointOid: nat, locationOid: nat)
    requires Assign(cps, ls, chargePointOid, Some(locationOid)).Ok?
    ensures var after := Assign(cps, ls, chargePointOid, Some(locationOid)).value;
            var k := ChargePointIndex(cps, chargePointOid);
            var stored := after[k := PersistAsWritten(after[k])];
            stored == cps[k := cps[k].(locationId := None)]
            && ChargePointsAt(stored, locationOid) == ChargePointsAt(cps[k := cps[k].(locationId := None)], locationOid)
            && stored[k] !in ChargePointsAt(stored, locationOid)
  {
  }
}
