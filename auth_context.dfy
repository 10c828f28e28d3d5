/**
 * The authentication context: how an identity-provider session user becomes
 * the application's `User`, how the provider's sign-in and sign-up
 * responses become results, and the `user`/`loading` state that the
 * session fetch, the auth-change listener and logout update.
 */
module AuthContext {
  import opened Wrappers
  import opened Strings

  /** The provider's user record, as far as the context reads it. */
  datatype SessionUser = SessionUser(id: string, email: Option<string>, fullName: Option<string>)

  /** The application's user. */
  datatype User = User(id: string, email: string, name: string)

  /** `email.split('@')[0]`: everything before the first `@`, or the whole email if there is none. */
  function EmailPrefix(email: string): (p: string)
    ensures IsPrefix(p, email)
    ensures '@' !in p
    ensures |p| == |email| || email[|p|] == '@'
  {
    if |email| == 0 || email[0] == '@' then "" else [email[0]] + EmailPrefix(email[1..])
  }

  /** Splitting an address back at its `@` recovers the local part, whatever follows. */
  lemma {:induction false} EmailPrefixOfAddress(local: string, rest: string)
    requires '@' !in local
    ensures EmailPrefix(local + "@" + rest) == local
  {
    if |local| > 0 {
      assert (local + "@" + rest)[1..] == local[1..] + "@" + rest;
      EmailPrefixOfAddress(local[1..], rest);
    }
  }

  /** An email with no `@` is its own prefix. */
  lemma {:induction false} EmailPrefixWithoutAt(email: string)
    requires '@' !in email
    ensures EmailPrefix(email) == email
  {
    if |email| > 0 {
      EmailPrefixWithoutAt(email[1..]);
    }
  }

  /** JavaScript truthiness of the optional `full_name`: present and non-empty. */
  function HasFullName(u: SessionUser): (b: bool)
    ensures b ==> u.fullName.Some? && |u.fullName.value| > 0
    ensures u.fullName == None || u.fullName == Some("") ==> !b
    ensures u.fullName.Some? && u.fullName.value != "" ==> b
  {
    u.fullName.Some? && u.fullName.value != ""
  }

  /** `full_name || (email ?? "").split('@')[0]`. */
  function DisplayName(u: SessionUser): (name: string)
    ensures HasFullName(u) ==> name == u.fullName.value
    ensures !HasFullName(u) ==> name == EmailPrefix(u.email.GetOr(""))
    ensures !HasFullName(u) ==> IsPrefix(name, u.email.GetOr("")) && '@' !in name
  {
    if HasFullName(u) then u.fullName.value else EmailPrefix(u.email.GetOr(""))
  }

  /** With neither a full name nor an email the name is empty. */
  lemma NoNameNoEmail(u: SessionUser)
    requires !HasFullName(u) && u.email == None
    ensures DisplayName(u) == ""
  {
  }

  /** The `User` both the session fetch and the listener build from a session user. */
  function ToUser(u: SessionUser): (r: User)
    ensures r.id == u.id && r.email == u.email.GetOr("")
    ensures r.name == DisplayName(u)
    ensures HasFullName(u) ==> r.name == u.fullName.value
    ensures !HasFullName(u) ==> IsPrefix(r.name, r.email) && '@' !in r.name
  {
    User(u.id, u.email.GetOr(""), DisplayName(u))
  }

  /** Without a full name, a user signed up as `local@domain` is called `local`. */
  lemma NameFromAddress(id: string, local: string, domain: string)
    requires '@' !in local
    ensures ToUser(SessionUser(id, Some(local + "@" + domain), None)).name == local
  {
    EmailPrefixOfAddress(local, domain);
  }

  /** What `signInWithPassword` did: it threw, or returned with an optional error. */
  datatype SignInResponse = SignInThrew | SignInReturned(error: Option<string>)

  /** `login`'s result. */
  function LoginResult(response: SignInResponse): (ok: bool)
    ensures ok <==> response == SignInReturned(None)
  {
    match response
    case SignInThrew => false
    case SignInReturned(error) => error.None?
  }

  /** What `signUp` did: it threw, or returned an optional error and whether a user and a session came back. */
  datatype SignUpResponse = SignUpThrew | SignUpReturned(error: Option<string>, hasUser: bool, hasSession: bool)

  /** `SignupResult`: `true`, `false` or `'confirm'`. */
  datatype SignupResult = SignedUp | Failed | NeedsConfirmation

  /** `signup`'s result. */
  function SignupResultOf(response: SignUpResponse): (r: SignupResult)
    ensures r == Failed <==> response.SignUpThrew? || response.error.Some?
    ensures r == NeedsConfirmation <==> response == SignUpReturned(None, false, false)
    ensures r == SignedUp <==> response.SignUpReturned? && response.error.None? && (response.hasUser || response.hasSession)
  {
    match response
    case SignUpThrew => Failed
    case SignUpReturned(error, hasUser, hasSession) =>
      if error.Some? then Failed
      else if !hasUser && !hasSession then NeedsConfirmation
      else SignedUp
  }

  /** How `getSession` settled: rejected, or resolved with an optional session user. */
  datatype SessionReply = SessionRejected | SessionResolved(session: Option<SessionUser>)

  /** The provider's state as the rest of the application sees it. */
  class AuthState {
    var user: Option<User>
    var loading: bool

    constructor ()
      ensures user == None && loading
    {
      user, loading := None, true;
    }

    /**
     * The initial session fetch. A session user signs in, and either way
     * loading ends. There is no `try`/`finally` around the fetch, so if
     * `getSession` rejects nothing changes and loading never ends.
     */
    method SessionFetched(reply: SessionReply)
      modifies this
      ensures reply.SessionRejected? ==> user == old(user) && loading == old(loading)
      ensures reply.SessionResolved? && reply.session.Some? ==> user == Some(ToUser(reply.session.value)) && !loading
      ensures reply.SessionResolved? && reply.session.None? ==> user == old(user) && !loading
    {
      match reply {
        case SessionRejected =>
        case SessionResolved(session) =>
          if session.Some? {
            user := Some(ToUser(session.value));
          }
          loading := false;
      }
    }

    /** The auth-change listener: the user follows the session, and no session signs out. */
    method AuthStateChanged(session: Option<SessionUser>)
      modifies this`user
      ensures session.Some? ==> user == Some(ToUser(session.value))
      ensures session.None? ==> user == None
    {
      if session.Some? {
        user := Some(ToUser(session.value));
      } else {
        user := None;
      }
    }

    /** `logout`, once the provider's sign-out has returned. */
    method Logout()
      modifies this`user
      ensures user == None
    {
      user := None;
    }
  }

  /** The session fetch and the listener agree on the user they build from one session user. */
  method FetchAndListenerAgree(u: SessionUser) returns (fetched: Option<User>, heard: Option<User>)
    ensures fetched == heard == Some(ToUser(u))
  {
    var a := new AuthState();
    a.SessionFetched(SessionResolved(Some(u)));
    var b := new AuthState();
    b.AuthStateChanged(Some(u));
    fetched, heard := a.user, b.user;
  }
}
