/** app/api/auth/login/route.ts: the credential check. */
module LoginRoute {
  import opened Wrappers
  import opened Seqs
  import opened Data
  import opened Api

  /** The user object a successful login returns: there is no password field. */
  datatype PublicUser = PublicUser(id: string, username: string, role: Role, name: string)

  const InvalidCredentials := ApiError(401, "Invalid username or password")

  /** POST `{ username, password }`. Only the first user with the username is
      checked; an unknown username and a wrong password give the same answer.
      Being a function, it changes nothing in the store. */
  function Post(store: Store, username: string, password: string): (r: Result<PublicUser, ApiError>)
    reads store
    ensures r.Err? ==> r.error == InvalidCredentials
    ensures (forall u :: u in store.users ==> u.username != username) ==> r.Err?
    ensures forall i | IsFirstMatch(store.users, UsernameIs(username), i) ::
      var u := store.users[i];
      r == if u.password == password then Ok(PublicUser(u.id, u.username, u.role, u.name)) else Err(InvalidCredentials)
  {
    var user := store.GetUserByUsername(username);
    if user.None? || user.value.password != password then Err(InvalidCredentials)
    else Ok(PublicUser(user.value.id, user.value.username, user.value.role, user.value.name))
  }

  /** With the seeded users, the admin logs in as an admin, and a guard giving
      the wrong password is refused like an unknown user. */
  lemma SeedLogins(store: Store)
    requires store.users == SeedUsers
    ensures Post(store, "admin", "admin123") == Ok(PublicUser("1", "admin", Admin, "Admin User"))
    ensures Post(store, "guard1", "admin123") == Post(store, "nobody", "guard123") == Err(InvalidCredentials)
  {
    assert IsFirstMatch(store.users, UsernameIs("admin"), 0);
    assert IsFirstMatch(store.users, UsernameIs("guard1"), 1);
  }
}
