/** The sign-in / sign-up form: it normalises the e-mail and name, checks
    that a new password was typed twice, and calls the context. */
module AuthPage {
  import opened Wrappers
  import opened Text
  import opened Storage
  import opened AuthContext

  /** The form signs in on "/login" and signs up on every other path. */
  predicate IsLoginPath(path: string) {
    path == "/login"
  }

  /** `email.trim().toLowerCase()`: the typed address between its leading
      and trailing blanks, with its ASCII letters lower-cased. */
  function NormaliseEmail(email: string): (r: string)
    ensures |r| <= |email|
    ensures exists a ::
      && 0 <= a <= |email| - |r|
      && AllWhitespace(email[..a]) && AllWhitespace(email[a + |r|..])
      && forall k :: 0 <= k < |r| ==> r[k] == LowerChar(email[a + k])
    ensures r != [] ==> !IsWhitespace(r[0]) && !IsWhitespace(r[|r| - 1])
    ensures forall i :: 0 <= i < |r| ==> !('A' <= r[i] <= 'Z')
  {
    var t := Trim(email);
    TrimStartSpec(email);
    TrimEndSpec(TrimStart(email));
    var a := |email| - |TrimStart(email)|;
    assert email[a + |t|..] == TrimStart(email)[|t|..];
    assert forall k :: 0 <= k < |t| ==> email[a + k] == t[k];
    LowerCharKeepsWhitespace(if t == [] then ' ' else t[0]);
    LowerCharKeepsWhitespace(if t == [] then ' ' else t[|t| - 1]);
    ToLower(t)
  }

  /** A normalised e-mail is left as it is by normalising it again, so
      addresses that differ only in case or surrounding blanks reach the
      store as one. */
  lemma NormaliseEmailIdempotent(email: string)
    ensures NormaliseEmail(NormaliseEmail(email)) == NormaliseEmail(email)
  {
    var t := Trim(email);
    TrimmedIsFixed(email);
    calc {
      Trim(ToLower(t));
      TrimEnd(TrimStart(ToLower(t)));
      { ToLowerTrimStart(t); }
      TrimEnd(ToLower(TrimStart(t)));
      TrimEnd(ToLower(t));
      { ToLowerTrimEnd(t); }
      ToLower(TrimEnd(t));
      ToLower(t);
    }
    ToLowerIdempotent(t);
  }

  /** Addresses that differ only in the case of their letters are
      normalised to one address. */
  lemma CaseVariantsCollide(a: string, b: string)
    requires ToLower(a) == ToLower(b)
    ensures NormaliseEmail(a) == NormaliseEmail(b)
  {
    ToLowerTrimStart(a);
    ToLowerTrimEnd(TrimStart(a));
    ToLowerTrimStart(b);
    ToLowerTrimEnd(TrimStart(b));
  }

  /** The store compares e-mails exactly, but since the form normalises
      first, an account registered through the form blocks every case
      variant of its address: registering one fails as a duplicate. */
  lemma FormDuplicateCheckIgnoresCase(users: seq<User>, u: User, first: string, again: string)
    requires u in users && u.email == NormaliseEmail(first)
    requires ToLower(first) == ToLower(again)
    ensures EmailTaken(users, NormaliseEmail(again))
  {
    CaseVariantsCollide(first, again);
  }

  /** The toast the form ends with. */
  datatype Notice = Welcome | LoginFailed | PasswordMismatch | AccountCreated | RegistrationFailed

  class AuthForm {
    const auth: AuthProvider
    const path: string
    var email: string
    var name: string
    var password: string
    var confirmPassword: string
    var isLoading: bool

    constructor (auth: AuthProvider, path: string)
      ensures this.auth == auth && this.path == path
      ensures email == "" && name == "" && password == "" && confirmPassword == ""
      ensures !isLoading
    {
      this.auth := auth;
      this.path := path;
      email, name, password, confirmPassword := "", "", "", "";
      isLoading := false;
    }

    /** `handleSubmit`. In sign-in mode the confirmation field is never
        read; in sign-up mode a mismatch stops before `register`. */
    method HandleSubmit(freshId: Id, now: Timestamp) returns (notice: Notice)
      modifies this`isLoading, auth`user, auth`isLoading, auth.store`users, auth.store`session
      ensures !isLoading
      ensures notice != PasswordMismatch ==> !auth.isLoading
      ensures IsLoginPath(path) ==> auth.store.users == old(auth.store.users)
      ensures IsLoginPath(path) ==>
        (notice == Welcome <==> old(auth.store.Authenticate(NormaliseEmail(email), password)).Some?)
      ensures IsLoginPath(path) ==> notice == Welcome || notice == LoginFailed
      ensures !IsLoginPath(path) && password != confirmPassword ==>
        notice == PasswordMismatch && auth.store.users == old(auth.store.users)
        && auth.store.session == old(auth.store.session) && auth.user == old(auth.user)
      ensures !IsLoginPath(path) && password == confirmPassword ==>
        (notice == AccountCreated <==> !EmailTaken(old(auth.store.users), NormaliseEmail(email)))
        && (notice == AccountCreated || notice == RegistrationFailed)
      ensures notice == AccountCreated ==>
        auth.store.users == old(auth.store.users) + [User(freshId, NormaliseEmail(email), Trim(name),
                                                         auth.store.hash(password), now)]
      ensures notice == AccountCreated ==>
        var stored := auth.store.users[|auth.store.users| - 1].email;
        NormaliseEmail(stored) == stored
    {
      isLoading := true;
      var e := NormaliseEmail(email);
      var n := Trim(name);
      if IsLoginPath(path) {
        var success := auth.Login(e, password);
        notice := if success then Welcome else LoginFailed;
      } else {
        if password != confirmPassword {
          isLoading := false;
          return PasswordMismatch;
        }
        NormaliseEmailIdempotent(email);
        var success := auth.Register(e, n, password, freshId, now);
        notice := if success then AccountCreated else RegistrationFailed;
      }
      isLoading := false;
    }
  }
}
