/** The `AuthProvider` context: the signed-in user held by the app, kept in
    step with the store's session by `login`, `register` and `logout`. */
module AuthContext {
  import opened Wrappers
  import opened Storage

  /** User ids as `crypto.randomUUID` makes them: non-empty and never
      repeated. */
  predicate ValidIds(users: seq<User>) {
    && (forall i :: 0 <= i < |users| ==> users[i].id != "")
    && (forall i, j :: 0 <= i < j < |users| ==> users[i].id != users[j].id)
  }

  /** In a table with valid ids, the session lookup of a stored user's id
      finds that user. */
  lemma SessionFindsUser(store: Store, u: User)
    requires ValidIds(store.users) && u in store.users && store.session == Some(u.id)
    ensures store.CurrentUser() == Some(u)
  {
    var r := store.CurrentUser();
    var i :| 0 <= i < |store.users| && store.users[i] == u;
    assert Truthy(store.session);
    var j :| 0 <= j < |store.users| && store.users[j] == r.value;
  }

  class AuthProvider {
    const store: Store
    var user: Option<User>
    var isLoading: bool

    /** The initial state, before the mount effect runs. */
    constructor (store: Store)
      ensures this.store == store && user == None && isLoading
    {
      this.store := store;
      user := None;
      isLoading := true;
    }

    /** The mount effect: the stored session decides the user. */
    method Mount()
      modifies this`user, this`isLoading
      ensures user == store.CurrentUser() && !isLoading
    {
      user := store.CurrentUser();
      isLoading := false;
    }

    /** `login`: true exactly when the store authenticates the pair; then
        the session and the user are that account, otherwise nothing
        changes. */
    method Login(email: string, password: string) returns (ok: bool)
      modifies this`user, this`isLoading, store`session
      ensures ok <==> old(store.Authenticate(email, password)).Some?
      ensures ok ==> user == old(store.Authenticate(email, password)) && store.session == Some(user.value.id)
      ensures !ok ==> user == old(user) && store.session == old(store.session)
      ensures ok && ValidIds(store.users) ==> store.CurrentUser() == user
      ensures !isLoading
    {
      isLoading := true;
      var authenticated := store.Authenticate(email, password);
      isLoading := false;
      if authenticated.Some? {
        store.SetSession(authenticated.value.id);
        user := authenticated;
        if ValidIds(store.users) {
          SessionFindsUser(store, authenticated.value);
        }
        return true;
      }
      return false;
    }

    /** `register`: false on a taken e-mail, with nothing changed;
        otherwise the new account is stored, becomes the session and the
        user. */
    method Register(email: string, name: string, password: string, freshId: Id, now: Timestamp)
      returns (ok: bool)
      modifies this`user, this`isLoading, store`users, store`session
      ensures ok <==> !EmailTaken(old(store.users), email)
      ensures ok ==> user == Some(User(freshId, email, name, store.hash(password), now))
      ensures ok ==> store.users == old(store.users) + [user.value] && store.session == Some(freshId)
      ensures !ok ==> user == old(user) && store.users == old(store.users) && store.session == old(store.session)
      ensures ok && ValidIds(store.users) ==> store.CurrentUser() == user
      ensures EmailsDistinct(old(store.users)) ==> EmailsDistinct(store.users)
      ensures !isLoading
    {
      isLoading := true;
      var created := store.CreateUser(email, name, password, freshId, now);
      if created.Failure? {
        isLoading := false;
        return false;
      }
      store.SetSession(created.value.id);
      user := Some(created.value);
      if ValidIds(store.users) {
        assert created.value == store.users[|store.users| - 1];
        SessionFindsUser(store, created.value);
      }
      isLoading := false;
      return true;
    }

    /** `logout`: the session and the Google account are cleared, and no
        user is signed in. */
    method Logout()
      modifies this`user, store`session, store`googleUser
      ensures user.None? && store.session.None? && store.googleUser.None?
      ensures store.CurrentUser().None?
    {
      store.ClearSession();
      store.googleUser := None;
      user := None;
    }
  }
}
