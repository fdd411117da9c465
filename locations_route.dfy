/** app/api/locations/route.ts: the supervisor's checkpoint management over the
    locations table. */
module LocationsRoute {
  import opened Wrappers
  import opened Seqs
  import opened Data
  import opened Api

  const LocationNotFound := ApiError(404, "Location not found")
  const LocationIdRequired := ApiError(400, "Location ID required")

  /** GET: the whole table, in store order. */
  function Get(store: Store): (r: seq<Location>)
    reads store
    ensures |r| == |store.locations|
    ensures forall i :: 0 <= i < |r| ==> r[i] == store.locations[i]
  {
    store.locations
  }

  /** POST: appends the body under a clock-derived id. */
  method Post(store: Store, body: Location, now: nat) returns (created: Location)
    modifies store`locations
    ensures created == body.(id := NewId(now))
    ensures store.locations == old(store.locations) + [created]
  {
    created := store.AddLocation(body, now);
  }

  /** PUT: the body's `id` selects the location and is stripped from the
      updates, so a successful update never changes the id. */
  method Put(store: Store, body: LocationPatch) returns (resp: Result<Location, ApiError>)
    modifies store`locations
    ensures resp.Err? ==> resp.error == LocationNotFound && store.locations == old(store.locations)
    ensures resp.Err? <==> body.id.None? || forall l :: l in old(store.locations) ==> l.id != body.id.value
    ensures resp.Ok? ==> resp.value.id == body.id.value
    ensures body.id.Some? ==> forall i :: IsFirstMatch(old(store.locations), LocationIdIs(body.id.value), i) ==>
      && resp == Ok(MergeLocation(old(store.locations)[i], body.(id := None)))
      && store.locations == old(store.locations)[i := resp.value]
  {
    if body.id.None? {
      return Err(LocationNotFound);
    }
    var updated := store.UpdateLocation(body.id.value, body.(id := None));
    if updated.None? {
      return Err(LocationNotFound);
    }
    ghost var i := IndexOfFirst(old(store.locations), LocationIdIs(body.id.value)).value;
    assert old(store.locations)[i].id == body.id.value;
    return Ok(updated.value);
  }

  /** DELETE `?id=…`: refused when the id is missing or empty; otherwise every
      location with that id is removed and `{ success: true }` is returned even
      if none was. Patrol records are left as they are. */
  method Delete(store: Store, id: Option<string>) returns (resp: Result<(), ApiError>)
    modifies store`locations
    ensures resp.Err? <==> !Given(id)
    ensures resp.Err? ==> resp.error == LocationIdRequired && store.locations == old(store.locations)
    ensures resp.Ok? ==> store.locations == Filter(old(store.locations), LocationIdIsNot(id.value))
    ensures resp.Ok? ==> forall l :: l in store.locations <==> l in old(store.locations) && l.id != id.value
  {
    if !Given(id) {
      return Err(LocationIdRequired);
    }
    store.DeleteLocation(id.value);
    return Ok(());
  }
}
