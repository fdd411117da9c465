/** app/api/guards/route.ts: the supervisor's guard management over the users
    table. */
module GuardsRoute {
  import opened Wrappers
  import opened Seqs
  import opened Data
  import opened Api

  const GuardNotFound := ApiError(404, "Guard not found")
  const GuardIdRequired := ApiError(400, "Guard ID required")

  function IsGuard(): User -> bool { (u: User) => u.role == Guard }

  /** GET: the users whose role is guard, in store order; admins are never listed.
      The entries are the full user records, passwords included. */
  function Get(store: Store): (r: seq<User>)
    reads store
    ensures forall u :: u in r <==> u in store.users && u.role == Guard
    ensures forall u :: u in r ==> u.role != Admin
  {
    Filter(store.users, IsGuard())
  }

  /** POST: the body's role is overridden, so the new user is always a guard. */
  method Post(store: Store, body: User, now: nat) returns (created: User)
    modifies store`users
    ensures created == body.(role := Guard, id := NewId(now))
    ensures created.role == Guard
    ensures store.users == old(store.users) + [created]
  {
    created := store.AddUser(body.(role := Guard), now);
  }

  /** PUT: the body's `id` selects the user and is stripped from the updates,
      so it can never change; any user can be updated, whatever the role. */
  method Put(store: Store, body: UserPatch) returns (resp: Result<User, ApiError>)
    modifies store`users
    ensures resp.Err? ==> resp.error == GuardNotFound && store.users == old(store.users)
    ensures resp.Err? <==> body.id.None? || forall u :: u in old(store.users) ==> u.id != body.id.value
    ensures resp.Ok? ==> resp.value.id == body.id.value
    ensures body.id.Some? ==> forall i :: IsFirstMatch(old(store.users), UserIdIs(body.id.value), i) ==>
      && resp == Ok(MergeUser(old(store.users)[i], body.(id := None)))
      && store.users == old(store.users)[i := resp.value]
  {
    if body.id.None? {
      // `updateUser(undefined, …)` finds no user
      return Err(GuardNotFound);
    }
    var updated := store.UpdateUser(body.id.value, body.(id := None));
    if updated.None? {
      return Err(GuardNotFound);
    }
    ghost var i := IndexOfFirst(old(store.users), UserIdIs(body.id.value)).value;
    assert old(store.users)[i].id == body.id.value;
    return Ok(updated.value);
  }

  /** DELETE `?id=…`: refused when the id is missing or empty; otherwise every
      user with that id is removed, and success is reported even if none was. */
  method Delete(store: Store, id: Option<string>) returns (resp: Result<(), ApiError>)
    modifies store`users
    ensures resp.Err? <==> !Given(id)
    ensures resp.Err? ==> resp.error == GuardIdRequired && store.users == old(store.users)
    ensures resp.Ok? ==> store.users == Filter(old(store.users), UserIdIsNot(id.value))
    ensures resp.Ok? ==> forall u :: u in store.users <==> u in old(store.users) && u.id != id.value
  {
    if !Given(id) {
      return Err(GuardIdRequired);
    }
    store.DeleteUser(id.value);
    return Ok(());
  }
}
