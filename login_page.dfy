/** The login page's module-level `users` list: on a successful sign-in the user with the
    incoming email is looked up, and added with the identity provider's subject id when
    there is none. */
module LoginPage {
  import opened Wrappers

  /** A stored session user `{id, name, email}`. */
  datatype User = User(id: string, name: string, email: string)

  /** The identity provider's profile: `sub`, `name`, `email`. */
  datatype UserInfo = UserInfo(sub: string, name: string, email: string)

  /** `users.find(u => u.email === email)`, as an index: the first user with that email. */
  function FindByEmail(users: seq<User>, email: string): (r: Option<nat>)
    ensures r.Some? ==> r.value < |users| && users[r.value].email == email &&
                        forall j :: 0 <= j < r.value ==> users[j].email != email
    ensures r.None? <==> forall j :: 0 <= j < |users| ==> users[j].email != email
  {
    if users == [] then None
    else if users[0].email == email then Some(0)
    else match FindByEmail(users[1..], email)
      case None => None
      case Some(i) => Some(i + 1)
  }

  /** No two stored users share an email. */
  ghost predicate DistinctEmails(users: seq<User>)
  {
    forall i, j :: 0 <= i < j < |users| ==> users[i].email != users[j].email
  }

  /** The body of `onSuccess` after the user-info request: the new list and the user
      handed to `setUser`. */
  function SignIn(users: seq<User>, info: UserInfo): (r: (seq<User>, User))
    ensures r.1.email == info.email && r.1 in r.0
    ensures r.0 == users || r.0 == users + [r.1]
  {
    match FindByEmail(users, info.email)
    case Some(i) => (users, users[i])
    case None =>
      var added := User(info.sub, info.name, info.email);
      (users + [added], added)
  }

  /** A known email returns the stored user and leaves the list alone; an unknown one
      appends `{id: sub, name, email}` at the end and returns it. */
  lemma SignInEffect(users: seq<User>, info: UserInfo)
    ensures var (after, user) := SignIn(users, info);
            user.email == info.email &&
            ((exists i :: 0 <= i < |users| && users[i].email == info.email) ==>
               after == users && user in users) &&
            ((forall i :: 0 <= i < |users| ==> users[i].email != info.email) ==>
               after == users + [User(info.sub, info.name, info.email)] &&
               user == User(info.sub, info.name, info.email))
  {
  }

  /** Each sign-in grows the list by at most one, never changes an existing entry, and keeps
      emails distinct. */
  lemma SignInPreservesEntries(users: seq<User>, info: UserInfo)
    ensures var (after, _) := SignIn(users, info);
            |users| <= |after| <= |users| + 1 && after[..|users|] == users
    ensures DistinctEmails(users) ==> DistinctEmails(SignIn(users, info).0)
  {
  }

  lemma {:induction false} FindAfterAppend(users: seq<User>, u: User)
    requires FindByEmail(users, u.email).None?
    ensures FindByEmail(users + [u], u.email) == Some(|users|)
  {
    if users != [] {
      assert (users + [u])[1..] == users[1..] + [u];
      FindAfterAppend(users[1..], u);
    }
  }

  /** A second sign-in with the same email gets the user stored by the first, with the id and
      name first seen, not the fresh `sub` and `name`; the list does not grow again. */
  lemma RepeatSignInReturnsFirst(users: seq<User>, first: UserInfo, again: UserInfo)
    requires again.email == first.email
    ensures var (after, user) := SignIn(users, first);
            SignIn(after, again) == (after, user)
  {
    if FindByEmail(users, first.email).None? {
      FindAfterAppend(users, User(first.sub, first.name, first.email));
    }
  }

  /** The module-level `users` array. */
  class UserDirectory {
    var users: seq<User>

    ghost predicate Valid()
      reads this
    {
      DistinctEmails(users)
    }

    constructor ()
      ensures Valid() && users == []
    {
      users := [];
    }

    /** The linear scan behind `users.find`. */
    method Find(email: string) returns (r: Option<nat>)
      ensures r == FindByEmail(users, email)
    {
      var i := 0;
      while i < |users|
        invariant 0 <= i <= |users|
        invariant forall j :: 0 <= j < i ==> users[j].email != email
      {
        if users[i].email == email {
          return Some(i);
        }
        i := i + 1;
      }
      return None;
    }

    /** `onSuccess` with the fetched profile `info`: find by email, or push a new user. */
    method OnLoginSuccess(info: UserInfo) returns (user: User)
      requires Valid()
      modifies this
      ensures Valid()
      ensures (users, user) == SignIn(old(users), info)
    {
      SignInPreservesEntries(users, info);
      var found := Find(info.email);
      if found.Some? {
        user := users[found.value];
      } else {
        user := User(info.sub, info.name, info.email);
        users := users + [user];
      }
    }
  }
}
