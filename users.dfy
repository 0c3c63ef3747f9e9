/** The user list: `ensureGuestUser`, which adds the guest account once, and
    the checks `handleRegister` makes before it appends a new account. */
module Users {
  import opened Wrappers
  import opened Text
  import opened Model

  /** `GUEST_USERNAME`. */
  const GuestUsername: string := "guest"

  /** `users.find(u => u.username === name)`: the first user with that name. */
  function FindByName(users: seq<User>, name: string): (r: Option<User>)
    ensures r.None? <==> forall i :: 0 <= i < |users| ==> users[i].username != name
    ensures r.Some? ==> r.value.username == name && r.value in users
    ensures r.Some? ==> exists k :: 0 <= k < |users| && users[k] == r.value
                                    && forall i :: 0 <= i < k ==> users[i].username != name
  {
    if users == [] then None
    else if users[0].username == name then Some(users[0])
    else FindByName(users[1..], name)
  }

  /** No two users share an id or a user name, ids are never empty, and no two
      users share a non-empty e-mail address (the guest has the empty one). */
  predicate DistinctUsers(users: seq<User>) {
    && (forall i :: 0 <= i < |users| ==> users[i].id != "")
    && (forall i, j :: 0 <= i < j < |users| ==> users[i].id != users[j].id)
    && (forall i, j :: 0 <= i < j < |users| ==> users[i].username != users[j].username)
    && (forall i, j :: 0 <= i < j < |users| && users[i].email != "" ==> users[i].email != users[j].email)
  }

  /** An id that no user has yet: what `generateId('u_')` is assumed to give. */
  predicate FreshUserId(users: seq<User>, id: UserId) {
    id != "" && forall i :: 0 <= i < |users| ==> users[i].id != id
  }

  /** The user list after `ensureGuestUser`: unchanged when some user is named
      `guest`, else with a guest account (empty e-mail) appended. */
  function WithGuest(users: seq<User>, freshId: UserId): (r: seq<User>)
    ensures FindByName(r, GuestUsername).Some?
    ensures FindByName(users, GuestUsername).Some? ==> r == users
    ensures FindByName(users, GuestUsername).None? ==> r == users + [User(freshId, GuestUsername, "")]
  {
    if FindByName(users, GuestUsername).Some? then users
    else
      var r := users + [User(freshId, GuestUsername, "")];
      assert r[|users|].username == GuestUsername;
      r
  }

  /** The account `ensureGuestUser` returns. */
  function GuestOf(users: seq<User>, freshId: UserId): (g: User)
    ensures g.username == GuestUsername
    ensures g in WithGuest(users, freshId)
  {
    match FindByName(users, GuestUsername)
    case Some(g) => g
    case None =>
      var r := users + [User(freshId, GuestUsername, "")];
      assert r[|users|] == User(freshId, GuestUsername, "");
      User(freshId, GuestUsername, "")
  }

  /** A second `ensureGuestUser` adds nothing and returns the same guest. */
  lemma EnsureGuestTwice(users: seq<User>, a: UserId, b: UserId)
    ensures WithGuest(WithGuest(users, a), b) == WithGuest(users, a)
    ensures GuestOf(WithGuest(users, a), b) == GuestOf(users, a)
  {
    if FindByName(users, GuestUsername).None? {
      FindAfterMissing(users, User(a, GuestUsername, ""));
    }
  }

  lemma {:induction false} FindAfterMissing(users: seq<User>, u: User)
    requires FindByName(users, u.username).None?
    ensures FindByName(users + [u], u.username) == Some(u)
  {
    if users != [] {
      assert (users + [u])[1..] == users[1..] + [u];
      FindAfterMissing(users[1..], u);
    }
  }

  /** Appending an account with a fresh id and an unused name (and an unused
      e-mail, unless empty) keeps the users distinct. */
  lemma AppendKeepsDistinct(users: seq<User>, u: User)
    requires DistinctUsers(users) && FreshUserId(users, u.id)
    requires forall i :: 0 <= i < |users| ==> users[i].username != u.username
    requires u.email == "" || forall i :: 0 <= i < |users| ==> users[i].email != u.email
    ensures DistinctUsers(users + [u])
  {
    var r := users + [u];
    forall i, j | 0 <= i < j < |r|
      ensures r[i].id != r[j].id && r[i].username != r[j].username
      ensures r[i].email != "" ==> r[i].email != r[j].email
    {
      assert r[i] == users[i];
      if j < |users| {
        assert r[j] == users[j];
      }
    }
  }

  /** Adding the guest keeps the users distinct. */
  lemma WithGuestKeepsDistinct(users: seq<User>, freshId: UserId)
    requires DistinctUsers(users) && FreshUserId(users, freshId)
    ensures DistinctUsers(WithGuest(users, freshId))
  {
    if FindByName(users, GuestUsername).None? {
      AppendKeepsDistinct(users, User(freshId, GuestUsername, ""));
    }
  }

  /** What `handleRegister` decides, in the order it checks. */
  datatype Registration = Registered | MissingField | UsernameInUse | EmailInUse

  /** The decision for the trimmed user name and e-mail and the password as
      typed: a missing field first, then a taken user name, then a taken
      e-mail. */
  function RegisterOutcome(users: seq<User>, username: string, email: string, password: string): (r: Registration)
    ensures r == MissingField <==> Trim(username) == "" || Trim(email) == "" || password == ""
    ensures r == UsernameInUse <==> r != MissingField && exists i :: 0 <= i < |users| && users[i].username == Trim(username)
    ensures r == Registered <==>
      && Trim(username) != "" && Trim(email) != "" && password != ""
      && (forall i :: 0 <= i < |users| ==> users[i].username != Trim(username))
      && (forall i :: 0 <= i < |users| ==> users[i].email != Trim(email))
  {
    var name, mail := Trim(username), Trim(email);
    if name == "" || mail == "" || password == "" then MissingField
    else if exists i :: 0 <= i < |users| && users[i].username == name then UsernameInUse
    else if exists i :: 0 <= i < |users| && users[i].email == mail then EmailInUse
    else Registered
  }

  /** The user list after a registration: the new account appended when the
      checks pass, else unchanged. */
  function Registering(users: seq<User>, username: string, email: string, password: string,
                       freshId: UserId): (r: seq<User>)
    ensures RegisterOutcome(users, username, email, password) != Registered ==> r == users
    ensures RegisterOutcome(users, username, email, password) == Registered ==>
      |r| == |users| + 1 && r[..|users|] == users && r[|users|] == User(freshId, Trim(username), Trim(email))
  {
    if RegisterOutcome(users, username, email, password) == Registered
    then users + [User(freshId, Trim(username), Trim(email))]
    else users
  }

  /** A registration keeps the users distinct. */
  lemma RegisterKeepsDistinct(users: seq<User>, username: string, email: string, password: string,
                              freshId: UserId)
    requires DistinctUsers(users) && FreshUserId(users, freshId)
    ensures DistinctUsers(Registering(users, username, email, password, freshId))
  {
    if RegisterOutcome(users, username, email, password) == Registered {
      AppendKeepsDistinct(users, User(freshId, Trim(username), Trim(email)));
    }
  }
}
