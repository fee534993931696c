/** Sign-in with a single configured account: the credentials check that
    decides whether a user is signed in, and the two callbacks that carry the
    user's id from the sign-in into the token and from the token into the
    session. The password hash comparison is a parameter. */
module Auth {
  import opened Wrappers

  /** What the sign-in form submits; either field may be missing. */
  datatype Credentials = Credentials(username: Option<string>, password: Option<string>)

  /** The signed-in user. */
  datatype User = User(id: string, name: string, email: Option<string>)

  /** A string value that JavaScript treats as true: present and non-empty. */
  predicate Given(s: Option<string>) {
    s.Some? && s.value != ""
  }

  /** The credentials are complete: both fields given. */
  predicate CredentialsGiven(credentials: Option<Credentials>) {
    credentials.Some? && Given(credentials.value.username) && Given(credentials.value.password)
  }

  /** The account is configured: both environment variables given. */
  predicate AccountConfigured(envUser: Option<string>, envHash: Option<string>) {
    Given(envUser) && Given(envHash)
  }

  /** `authorize`: `envUser` and `envHash` are `AUTH_USER` and
      `AUTH_PASSWORD_HASH`; `compare(password, hash)` is the bcrypt check. It
      signs in exactly when the credentials are complete, the account is
      configured, the username is the configured one and the password
      matches the hash. */
  function Authorize(credentials: Option<Credentials>, envUser: Option<string>, envHash: Option<string>,
                     compare: (string, string) -> bool): (r: Option<User>)
    ensures r.Some? <==>
      CredentialsGiven(credentials) && AccountConfigured(envUser, envHash) &&
      credentials.value.username.value == envUser.value &&
      compare(credentials.value.password.value, envHash.value)
    ensures r.Some? ==> r.value == User("1", envUser.value, None)
  {
    if !CredentialsGiven(credentials) then None
    else if !AccountConfigured(envUser, envHash) then None
    else if credentials.value.username.value != envUser.value then None
    else if !compare(credentials.value.password.value, envHash.value) then None
    else Some(User("1", envUser.value, None))
  }

  /** The hash comparison is only reached once the credentials, the
      configuration and the username have all been accepted: before that the
      outcome is the same whatever the comparison would say. */
  lemma CompareReachedLast(credentials: Option<Credentials>, envUser: Option<string>, envHash: Option<string>,
                           compare1: (string, string) -> bool, compare2: (string, string) -> bool)
    requires !(CredentialsGiven(credentials) && AccountConfigured(envUser, envHash) &&
               credentials.value.username.value == envUser.value)
    ensures Authorize(credentials, envUser, envHash, compare1) == None
    ensures Authorize(credentials, envUser, envHash, compare2) == None
  {
  }

  /** A username that differs from the configured one is refused even when
      the password would match. */
  lemma WrongUserRefused(username: string, password: string, envUser: string, envHash: string)
    requires username != envUser
    ensures Authorize(Some(Credentials(Some(username), Some(password))), Some(envUser), Some(envHash),
                      (p, h) => true).None?
  {
  }

  /** The session token. */
  class Token {
    var id: Option<string>

    constructor (id: Option<string>)
      ensures this.id == id
    {
      this.id := id;
    }
  }

  /** The user part of a session. */
  class SessionUser {
    var id: Option<string>
    var name: Option<string>

    constructor (id: Option<string>, name: Option<string>)
      ensures this.id == id && this.name == name
    {
      this.id := id;
      this.name := name;
    }
  }

  class Session {
    var user: SessionUser?

    constructor (user: SessionUser?)
      ensures this.user == user
    {
      this.user := user;
    }
  }

  /** The `jwt` callback: the token takes the user's id when a user has just
      signed in and is otherwise returned unchanged. */
  method Jwt(token: Token, user: Option<User>) returns (result: Token)
    modifies token
    ensures result == token
    ensures user.Some? ==> token.id == Some(user.value.id)
    ensures user.None? ==> token.id == old(token.id)
  {
    if user.Some? {
      token.id := Some(user.value.id);
    }
    return token;
  }

  /** The `session` callback: the session's user takes the token's id when
      there is both a token and a session user; nothing else changes. */
  method SessionCallback(session: Session, token: Token?) returns (result: Session)
    modifies session.user
    ensures result == session && session.user == old(session.user)
    ensures token != null && session.user != null ==> session.user.id == token.id
    ensures session.user != null ==> session.user.name == old(session.user.name)
    ensures (token == null || session.user == null) ==> (session.user != null ==> session.user.id == old(session.user.id))
  {
    if token != null && session.user != null {
      session.user.id := token.id;
    }
    return session;
  }
}
