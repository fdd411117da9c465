/** The in-memory store of lib/data.ts: three tables (users, locations and
    patrol records) held in module-level arrays, with add, update, delete and
    lookup operations. The table state is the class `Store`; the clock that
    `Date.now()` and `new Date()` read is passed in by the caller. */
module Data {
  import opened Wrappers
  import opened Seqs
  import Text
  import ChecklistMap

  datatype Role = Admin | Guard

  datatype User = User(id: string, username: string, password: string, role: Role, name: string)

  /** `Partial<User>`: a field that is `Some` overrides, `None` keeps the old value. */
  datatype UserPatch = UserPatch(
    id: Option<string>, username: Option<string>, password: Option<string>,
    role: Option<Role>, name: Option<string>)

  datatype Location = Location(id: string, name: string, latitude: real, longitude: real, checklist: seq<string>)

  /** `Partial<Location>` */
  datatype LocationPatch = LocationPatch(
    id: Option<string>, name: Option<string>, latitude: Option<real>,
    longitude: Option<real>, checklist: Option<seq<string>>)

  datatype PatrolRecord = PatrolRecord(
    id: string, guardId: string, guardName: string, locationId: string, locationName: string,
    timestamp: string, latitude: real, longitude: real,
    checklistResults: ChecklistMap.Checklist, photoUrl: Option<string>,
    distanceFromCheckpoint: real)

  /** A distance in meters. */
  type Meters = r: real | 0.0 <= r

  /** `calculateDistance(lat1, lon1, lat2, lon2)`: the haversine distance, kept
      opaque; all the model relies on is that it is not negative. */
  type DistanceFn = (real, real, real, real) -> Meters

  /** The proximity threshold, in meters, shared by the guard's page and the
      check-in route. */
  const CheckInRadius: real := 50.0

  /** `Date.now().toString()`, the id every add assigns. */
  function NewId(now: nat): string {
    Text.NatToString(now)
  }

  /** `{ ...u, ...p }` */
  function MergeUser(u: User, p: UserPatch): User {
    User(p.id.GetOr(u.id), p.username.GetOr(u.username), p.password.GetOr(u.password),
         p.role.GetOr(u.role), p.name.GetOr(u.name))
  }

  /** `{ ...l, ...p }` */
  function MergeLocation(l: Location, p: LocationPatch): Location {
    Location(p.id.GetOr(l.id), p.name.GetOr(l.name), p.latitude.GetOr(l.latitude),
             p.longitude.GetOr(l.longitude), p.checklist.GetOr(l.checklist))
  }

  // The callbacks handed to `find`, `findIndex` and `filter`.

  function UserIdIs(id: string): User -> bool { (u: User) => u.id == id }
  function UserIdIsNot(id: string): User -> bool { (u: User) => u.id != id }
  function UsernameIs(username: string): User -> bool { (u: User) => u.username == username }
  function LocationIdIs(id: string): Location -> bool { (l: Location) => l.id == id }
  function LocationIdIsNot(id: string): Location -> bool { (l: Location) => l.id != id }
  function RecordGuardIs(guardId: string): PatrolRecord -> bool { (p: PatrolRecord) => p.guardId == guardId }
  function RecordDateIs(date: string): PatrolRecord -> bool { (p: PatrolRecord) => Text.StartsWith(p.timestamp, date) }

  /** The users the store starts with. */
  const SeedUsers: seq<User> := [
    User("1", "admin", "admin123", Admin, "Admin User"),
    User("2", "guard1", "guard123", Guard, "John Smith"),
    User("3", "guard2", "guard123", Guard, "Jane Doe")
  ]

  /** The checkpoints the store starts with. */
  const SeedLocations: seq<Location> := [
    Location("1", "Main Entrance", 40.7128, -74.0060,
             ["Door locked", "Lights off", "No damage visible", "No safety hazards"]),
    Location("2", "Parking Lot", 40.7138, -74.0070,
             ["Gate secured", "Adequate lighting", "No unauthorized vehicles", "No safety hazards"]),
    Location("3", "Building A", 40.7118, -74.0050,
             ["All doors locked", "Windows secure", "Alarm system active", "No suspicious activity"]),
    Location("4", "Warehouse", 40.7148, -74.0080,
             ["Loading dock secure", "Inventory area locked", "Fire exits clear", "No safety hazards"]),
    Location("5", "Back Perimeter", 40.7108, -74.0040,
             ["Fence intact", "Gate locked", "Lighting functional", "No trespassing signs visible"])
  ]

  class Store {
    var users: seq<User>
    var locations: seq<Location>
    var patrolRecords: seq<PatrolRecord>

    constructor ()
      ensures users == SeedUsers && locations == SeedLocations && patrolRecords == []
    {
      users := SeedUsers;
      locations := SeedLocations;
      patrolRecords := [];
    }

    // ---- users ----

    /** `getUser(id)`: the first user with that id, if any. */
    function GetUser(id: string): (r: Option<User>)
      reads this
      ensures r.None? <==> forall u :: u in users ==> u.id != id
      ensures forall i :: IsFirstMatch(users, UserIdIs(id), i) ==> r == Some(users[i])
      ensures r.Some? ==> r.value in users && r.value.id == id
    {
      First(users, UserIdIs(id))
    }

    /** `getUserByUsername(username)`: the first user with that username, if any. */
    function GetUserByUsername(username: string): (r: Option<User>)
      reads this
      ensures r.None? <==> forall u :: u in users ==> u.username != username
      ensures forall i :: IsFirstMatch(users, UsernameIs(username), i) ==> r == Some(users[i])
      ensures r.Some? ==> r.value in users && r.value.username == username
    {
      First(users, UsernameIs(username))
    }

    /** `addUser(user)`: appends the user under the clock-derived id and returns it. */
    method AddUser(user: User, now: nat) returns (added: User)
      modifies this`users
      ensures added == user.(id := NewId(now))
      ensures users == old(users) + [added]
    {
      added := user.(id := NewId(now));
      users := users + [added];
    }

    /** `updateUser(id, updates)`: merges the updates into the first user with
        that id; `None` (TypeScript's `null`) when there is none. */
    method UpdateUser(id: string, updates: UserPatch) returns (updated: Option<User>)
      modifies this`users
      ensures updated.None? <==> forall u :: u in old(users) ==> u.id != id
      ensures updated.None? ==> users == old(users)
      ensures forall i :: IsFirstMatch(old(users), UserIdIs(id), i) ==>
        users == old(users)[i := MergeUser(old(users)[i], updates)] && updated == Some(users[i])
    {
      match IndexOfFirst(users, UserIdIs(id))
      case None =>
        updated := None;
      case Some(i) =>
        users := users[i := MergeUser(users[i], updates)];
        updated := Some(users[i]);
    }

    /** `deleteUser(id)`: drops every user with that id, keeping the others in order. */
    method DeleteUser(id: string)
      modifies this`users
      ensures users == Filter(old(users), UserIdIsNot(id))
      ensures forall u :: u in users <==> u in old(users) && u.id != id
      ensures (forall u :: u in old(users) ==> u.id != id) ==> users == old(users)
    {
      if forall u :: u in users ==> u.id != id {
        FilterKeepsAll(users, UserIdIsNot(id));
      }
      users := Filter(users, UserIdIsNot(id));
    }

    // ---- locations ----

    /** `getLocation(id)`: the first location with that id, if any. */
    function GetLocation(id: string): (r: Option<Location>)
      reads this
      ensures r.None? <==> forall l :: l in locations ==> l.id != id
      ensures forall i :: IsFirstMatch(locations, LocationIdIs(id), i) ==> r == Some(locations[i])
      ensures r.Some? ==> r.value in locations && r.value.id == id
    {
      First(locations, LocationIdIs(id))
    }

    /** `addLocation(location)`: appends the location under the clock-derived id and returns it. */
    method AddLocation(location: Location, now: nat) returns (added: Location)
      modifies this`locations
      ensures added == location.(id := NewId(now))
      ensures locations == old(locations) + [added]
    {
      added := location.(id := NewId(now));
      locations := locations + [added];
    }

    /** `updateLocation(id, updates)` */
    method UpdateLocation(id: string, updates: LocationPatch) returns (updated: Option<Location>)
      modifies this`locations
      ensures updated.None? <==> forall l :: l in old(locations) ==> l.id != id
      ensures updated.None? ==> locations == old(locations)
      ensures forall i :: IsFirstMatch(old(locations), LocationIdIs(id), i) ==>
        locations == old(locations)[i := MergeLocation(old(locations)[i], updates)] && updated == Some(locations[i])
    {
      match IndexOfFirst(locations, LocationIdIs(id))
      case None =>
        updated := None;
      case Some(i) =>
        locations := locations[i := MergeLocation(locations[i], updates)];
        updated := Some(locations[i]);
    }

    /** `deleteLocation(id)`; patrol records naming the location are untouched. */
    method DeleteLocation(id: string)
      modifies this`locations
      ensures locations == Filter(old(locations), LocationIdIsNot(id))
      ensures forall l :: l in locations <==> l in old(locations) && l.id != id
      ensures (forall l :: l in old(locations) ==> l.id != id) ==> locations == old(locations)
    {
      if forall l :: l in locations ==> l.id != id {
        FilterKeepsAll(locations, LocationIdIsNot(id));
      }
      locations := Filter(locations, LocationIdIsNot(id));
    }

    // ---- patrol records (append-only: there is no update or delete) ----

    /** `getPatrolRecordsByGuard(guardId)` */
    function GetPatrolRecordsByGuard(guardId: string): (r: seq<PatrolRecord>)
      reads this
      ensures forall p :: p in r <==> p in patrolRecords && p.guardId == guardId
    {
      Filter(patrolRecords, RecordGuardIs(guardId))
    }

    /** `getPatrolRecordsByDate(date)`: the records whose timestamp starts with `date`. */
    function GetPatrolRecordsByDate(date: string): (r: seq<PatrolRecord>)
      reads this
      ensures forall p :: p in r <==> p in patrolRecords && Text.StartsWith(p.timestamp, date)
    {
      Filter(patrolRecords, RecordDateIs(date))
    }

    /** `getGuardPatrolsToday(guardId)`, with `nowIso` the server's `new Date().toISOString()`:
        the guard's records of the current UTC day. */
    function GetGuardPatrolsToday(guardId: string, nowIso: string): (r: seq<PatrolRecord>)
      reads this
      ensures forall p :: p in r <==>
        p in patrolRecords && p.guardId == guardId && Text.StartsWith(p.timestamp, Text.DatePart(nowIso))
    {
      Filter(patrolRecords, Both(RecordGuardIs(guardId), RecordDateIs(Text.DatePart(nowIso))))
    }

    /** `addPatrolRecord(record)`: appends the record under the clock-derived id and returns it. */
    method AddPatrolRecord(record: PatrolRecord, now: nat) returns (added: PatrolRecord)
      modifies this`patrolRecords
      ensures added == record.(id := NewId(now))
      ensures patrolRecords == old(patrolRecords) + [added]
    {
      added := record.(id := NewId(now));
      patrolRecords := patrolRecords + [added];
    }
  }

  /** Today's records for a guard are the guard's records narrowed to today's
      date: the one combined filter equals the two single filters in sequence. */
  lemma GuardPatrolsTodayIsBothFilters(s: Store, guardId: string, nowIso: string)
    ensures s.GetGuardPatrolsToday(guardId, nowIso)
         == Filter(s.GetPatrolRecordsByGuard(guardId), RecordDateIs(Text.DatePart(nowIso)))
  {
    FilterFilter(s.patrolRecords, RecordGuardIs(guardId), RecordDateIs(Text.DatePart(nowIso)));
  }

  /** Adding a record puts it at the end of every lookup it matches and leaves the
      earlier results as they were. */
  lemma AppendedRecordIsLast(records: seq<PatrolRecord>, r: PatrolRecord, p: PatrolRecord -> bool)
    requires p(r)
    ensures Filter(records + [r], p) == Filter(records, p) + [r]
  {
    FilterSnoc(records, r, p);
  }

  /** Ids are not checked for uniqueness: two users added at the same clock
      reading share an id, and `getUser` then only ever finds the earlier one. */
  lemma SameClockShadowsLaterUser(users: seq<User>, a: User, b: User, now: nat)
    requires forall u :: u in users ==> u.id != NewId(now)
    ensures var s := users + [a.(id := NewId(now))] + [b.(id := NewId(now))];
      s[|s| - 2].id == s[|s| - 1].id && First(s, UserIdIs(NewId(now))) == Some(a.(id := NewId(now)))
  {
    var s := users + [a.(id := NewId(now))] + [b.(id := NewId(now))];
    assert IsFirstMatch(s, UserIdIs(NewId(now)), |users|) by {
      forall j | 0 <= j < |users| ensures !UserIdIs(NewId(now))(s[j]) {
        assert s[j] == users[j];
      }
    }
  }

  /** Deleting twice by the same id is the same as deleting once. */
  lemma DeleteUserIdempotent(users: seq<User>, id: string)
    ensures Filter(Filter(users, UserIdIsNot(id)), UserIdIsNot(id)) == Filter(users, UserIdIsNot(id))
  {
    FilterIdempotent(users, UserIdIsNot(id));
  }

  /** Deleting twice by the same id is the same as deleting once. */
  lemma DeleteLocationIdempotent(locations: seq<Location>, id: string)
    ensures Filter(Filter(locations, LocationIdIsNot(id)), LocationIdIsNot(id)) == Filter(locations, LocationIdIsNot(id))
  {
    FilterIdempotent(locations, LocationIdIsNot(id));
  }
}
