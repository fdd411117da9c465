/** app/api/patrols/route.ts: listing patrol records (GET) and the server-side
    check-in gate (POST), which re-measures the distance itself and only then
    appends a record to the store. */
module PatrolsRoute {
  import opened Wrappers
  import opened Seqs
  import Text
  import ChecklistMap
  import opened Data
  import opened Api

  /** The JSON body of a check-in, as the guard's page sends it. */
  datatype CheckInBody = CheckInBody(
    guardId: string, locationId: string, latitude: real, longitude: real,
    checklistResults: ChecklistMap.Checklist, photoUrl: Option<string>)

  const InvalidLocationOrGuard := ApiError(400, "Invalid location or guard")

  /** The proximity rejection, carrying `Math.round(distance)`. */
  function OutOfRange(distance: real): ApiError {
    ApiError(400, "You must be within 50 meters of the checkpoint. Current distance: "
                  + Text.IntToString(Text.Round(distance)) + "m")
  }

  // ---- GET ----

  /** GET `?guardId=…&date=…`: each parameter that is given narrows the list. */
  function Get(store: Store, guardId: Option<string>, date: Option<string>): (r: seq<PatrolRecord>)
    reads store
    ensures forall p :: p in r <==>
      && p in store.patrolRecords
      && (Given(guardId) ==> p.guardId == guardId.value)
      && (Given(date) ==> Text.StartsWith(p.timestamp, date.value))
  {
    var records := store.patrolRecords;
    var records := if Given(guardId) then Filter(records, RecordGuardIs(guardId.value)) else records;
    if Given(date) then Filter(records, RecordDateIs(date.value)) else records
  }

  /** The combined condition of a GET query. */
  function QueryMatches(guardId: Option<string>, date: Option<string>): PatrolRecord -> bool {
    (p: PatrolRecord) =>
      && (Given(guardId) ==> p.guardId == guardId.value)
      && (Given(date) ==> Text.StartsWith(p.timestamp, date.value))
  }

  /** The filter chain of GET is one order-preserving filter by the conjunction
      of the given conditions; with no parameter it is the whole table in store order. */
  lemma GetIsOneFilter(store: Store, guardId: Option<string>, date: Option<string>)
    ensures Get(store, guardId, date) == Filter(store.patrolRecords, QueryMatches(guardId, date))
    ensures !Given(guardId) && !Given(date) ==> Get(store, guardId, date) == store.patrolRecords
  {
    var s := store.patrolRecords;
    var m := QueryMatches(guardId, date);
    if Given(guardId) && Given(date) {
      var p, q := RecordGuardIs(guardId.value), RecordDateIs(date.value);
      FilterFilter(s, p, q);
      FilterCongruent(s, Both(p, q), m);
    } else if Given(guardId) {
      FilterCongruent(s, RecordGuardIs(guardId.value), m);
    } else if Given(date) {
      FilterCongruent(s, RecordDateIs(date.value), m);
    } else {
      FilterKeepsAll(s, m);
    }
  }

  /** The query the guard's page sends for its progress (its own id and today's
      date) returns what `getGuardPatrolsToday` would on the same clock. */
  lemma TodayQueryIsGuardPatrolsToday(store: Store, guardId: string, nowIso: string)
    requires guardId != "" && Text.DatePart(nowIso) != ""
    ensures Get(store, Some(guardId), Some(Text.DatePart(nowIso))) == store.GetGuardPatrolsToday(guardId, nowIso)
  {
    FilterFilter(store.patrolRecords, RecordGuardIs(guardId), RecordDateIs(Text.DatePart(nowIso)));
  }

  // ---- POST ----

  /** The record a successful check-in stores, before the store gives it an id:
      names copied from the store, the reported position and checklist as sent,
      the server's timestamp and the server's distance. */
  function Candidate(body: CheckInBody, guard: User, location: Location, timestamp: string, distance: real): PatrolRecord {
    PatrolRecord("", body.guardId, guard.name, body.locationId, location.name, timestamp,
                 body.latitude, body.longitude, body.checklistResults, body.photoUrl, distance)
  }

  /** The decision POST makes against the users and locations tables. */
  function Admit(users: seq<User>, locations: seq<Location>, body: CheckInBody,
                 distance: DistanceFn, timestamp: string): (r: Result<PatrolRecord, ApiError>)
    ensures r.Err? ==> r.error.status == 400
    // an unknown checkpoint or actor is refused before any distance is measured
    ensures (forall l :: l in locations ==> l.id != body.locationId) || (forall u :: u in users ==> u.id != body.guardId)
      ==> r == Err(InvalidLocationOrGuard)
    // an accepted record is within the radius, by the server's own measurement
    ensures r.Ok? ==> r.value.distanceFromCheckpoint <= CheckInRadius
    ensures r.Ok? ==>
      && r.value.guardId == body.guardId && r.value.locationId == body.locationId
      && r.value.latitude == body.latitude && r.value.longitude == body.longitude
      && r.value.checklistResults == body.checklistResults && r.value.photoUrl == body.photoUrl
      && r.value.timestamp == timestamp
    // with both found, the threshold decides, inclusively
    ensures forall i, j |
      IsFirstMatch(locations, LocationIdIs(body.locationId), i) && IsFirstMatch(users, UserIdIs(body.guardId), j) ::
      var d := distance(body.latitude, body.longitude, locations[i].latitude, locations[i].longitude);
      && (r.Ok? <==> d <= CheckInRadius)
      && (r.Err? ==> r.error == OutOfRange(d))
      && (r.Ok? ==> (r.value.distanceFromCheckpoint == d
                     && r.value.guardName == users[j].name && r.value.locationName == locations[i].name))
  {
    match (First(locations, LocationIdIs(body.locationId)), First(users, UserIdIs(body.guardId)))
    case (Some(location), Some(guard)) =>
      var d := distance(body.latitude, body.longitude, location.latitude, location.longitude);
      if d > CheckInRadius then Err(OutOfRange(d)) else Ok(Candidate(body, guard, location, timestamp, d))
    case _ => Err(InvalidLocationOrGuard)
  }

  /** Every stored record passed the server's proximity check. */
  ghost predicate AllWithinRadius(records: seq<PatrolRecord>) {
    forall p :: p in records ==> p.distanceFromCheckpoint <= CheckInRadius
  }

  /** POST: the check-in gate. `now` is `Date.now()` (the record id), `nowIso`
      is `new Date().toISOString()` (the record timestamp). */
  method Post(store: Store, body: CheckInBody, distance: DistanceFn, now: nat, nowIso: string)
    returns (resp: Result<PatrolRecord, ApiError>)
    modifies store`patrolRecords
    ensures match Admit(store.users, store.locations, body, distance, nowIso)
      case Err(e) => resp == Err(e) && store.patrolRecords == old(store.patrolRecords)
      case Ok(candidate) =>
        && resp == Ok(candidate.(id := NewId(now)))
        && store.patrolRecords == old(store.patrolRecords) + [resp.value]
    ensures AllWithinRadius(old(store.patrolRecords)) ==> AllWithinRadius(store.patrolRecords)
  {
    var location := store.GetLocation(body.locationId);
    var guard := store.GetUser(body.guardId);
    if location.None? || guard.None? {
      return Err(InvalidLocationOrGuard);
    }
    var d := distance(body.latitude, body.longitude, location.value.latitude, location.value.longitude);
    if d > CheckInRadius {
      return Err(OutOfRange(d));
    }
    var record := store.AddPatrolRecord(Candidate(body, guard.value, location.value, nowIso, d), now);
    return Ok(record);
  }

  /** The checklist is never inspected: whether a check-in is accepted does not
      depend on it, so a record is created even with unchecked items or none. */
  lemma ChecklistNotInspected(users: seq<User>, locations: seq<Location>, body: CheckInBody,
                              other: ChecklistMap.Checklist, distance: DistanceFn, timestamp: string)
    ensures Admit(users, locations, body, distance, timestamp).Ok?
        <==> Admit(users, locations, body.(checklistResults := other), distance, timestamp).Ok?
  {
  }

  /** An accepted record shows up last in its guard's list for that day. */
  lemma AdmittedRecordCountsToday(records: seq<PatrolRecord>, users: seq<User>, locations: seq<Location>,
                                  body: CheckInBody, distance: DistanceFn, now: nat, nowIso: string)
    requires Admit(users, locations, body, distance, nowIso).Ok?
    ensures var added := Admit(users, locations, body, distance, nowIso).value.(id := NewId(now));
      var today := Both(RecordGuardIs(body.guardId), RecordDateIs(Text.DatePart(nowIso)));
      Filter(records + [added], today) == Filter(records, today) + [added]
  {
    var added := Admit(users, locations, body, distance, nowIso).value.(id := NewId(now));
    FilterSnoc(records, added, Both(RecordGuardIs(body.guardId), RecordDateIs(Text.DatePart(nowIso))));
  }

  /** A rejected distance can be reported as the limit itself: 50.4 m is refused
      while the message, which rounds, says 50m. */
  lemma RejectionCanReportFifty()
    ensures 50.4 > CheckInRadius
    ensures OutOfRange(50.4).message == "You must be within 50 meters of the checkpoint. Current distance: 50m"
  {
    assert Text.Round(50.4) == 50;
    assert Text.NatToString(50) == "50" by {
      assert Text.NatToString(5) == "5";
    }
  }

  /** The actor check accepts any user, whatever the role: the seeded admin
      standing on the seeded main entrance is checked in. */
  lemma AdminCanCheckIn(checklist: ChecklistMap.Checklist)
    ensures var body := CheckInBody("1", "1", 40.7128, -74.0060, checklist, None);
      var atPoint: DistanceFn := (a: real, b: real, c: real, d: real) => if a == c && b == d then 0.0 else 100.0;
      Admit(SeedUsers, SeedLocations, body, atPoint, "2024-05-01T08:00:00.000Z").Ok?
  {
    assert IsFirstMatch(SeedUsers, UserIdIs("1"), 0);
    assert IsFirstMatch(SeedLocations, LocationIdIs("1"), 0);
  }
}
