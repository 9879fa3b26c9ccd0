/** Authentication decisions (`authOptions`): the credential check of
    `authorize`, the display-name fallback, and the `session` and `redirect`
    callbacks. The users table is a sequence of records (absent when the
    query throws), the password hash comparison and URL parsing are oracles
    passed in as functions. */
module Auth {
  import opened Wrappers
  import opened Text

  datatype Credentials = Credentials(email: Option<string>, password: Option<string>)

  /** A row of the users table; `password` holds the hash. */
  datatype UserRecord = UserRecord(id: string, name: Option<string>, email: string, password: string)

  /** The user `authorize` signs in. */
  datatype AuthUser = AuthUser(id: string, email: string, name: string)

  /** The first user with the given email. */
  function FindByEmail(users: seq<UserRecord>, email: string): (r: Option<UserRecord>)
    ensures r.Some? ==> r.value in users && r.value.email == email
    ensures r.None? ==> forall i :: 0 <= i < |users| ==> users[i].email != email
  {
    if users == [] then None
    else if users[0].email == email then Some(users[0])
    else FindByEmail(users[1..], email)
  }

  /** `user.name || user.email.split('@')[0]`: the name when it is not
      empty, else the part of the email before its first `@` (all of it when
      there is none). */
  function DisplayName(u: UserRecord): (n: string)
    ensures Truthy(u.name) ==> n == u.name.value
    ensures !Truthy(u.name) ==> '@' !in n && |n| <= |u.email| && n == u.email[..|n|]
    ensures !Truthy(u.name) && '@' in u.email ==> |n| < |u.email| && u.email[|n|] == '@'
    ensures !Truthy(u.name) && '@' !in u.email ==> n == u.email
  {
    if Truthy(u.name) then u.name.value
    else
      SplitHead(u.email, '@');
      Split(u.email, '@')[0]
  }

  /** `authorize`: `None` when the email or password is missing (before any
      lookup), when the lookup fails or finds no user, when the user has no
      password hash, or when the comparison fails or throws; otherwise the
      user's id, email and display name. */
  function Authorize(credentials: Option<Credentials>, users: Option<seq<UserRecord>>,
                     compare: (string, string) -> Option<bool>): (r: Option<AuthUser>)
    ensures credentials.None? || !Truthy(credentials.value.email) || !Truthy(credentials.value.password) ==>
      r.None?
    ensures r.Some? ==>
      && credentials.Some? && Truthy(credentials.value.email) && Truthy(credentials.value.password)
      && users.Some?
      && var u := FindByEmail(users.value, credentials.value.email.value);
      && u.Some? && u.value.password != ""
      && compare(credentials.value.password.value, u.value.password) == Some(true)
      && r.value == AuthUser(u.value.id, u.value.email, DisplayName(u.value))
  {
    if credentials.None? || !Truthy(credentials.value.email) || !Truthy(credentials.value.password) then None
    else if users.None? then None
    else
      var email := credentials.value.email.value;
      match FindByEmail(users.value, email)
      case None => None
      case Some(u) =>
        if u.password == "" then None
        else if compare(credentials.value.password.value, u.password) != Some(true) then None
        else Some(AuthUser(u.id, u.email, DisplayName(u)))
  }

  /** A stored user whose hash matches the password given with its email is
      signed in. */
  lemma AuthorizeAccepts(email: string, password: string, users: seq<UserRecord>, i: nat,
                         compare: (string, string) -> Option<bool>)
    requires email != "" && password != ""
    requires i < |users| && users[i].email == email && users[i].password != ""
    requires forall j :: 0 <= j < i ==> users[j].email != email
    requires compare(password, users[i].password) == Some(true)
    ensures Authorize(Some(Credentials(Some(email), Some(password))), Some(users), compare)
         == Some(AuthUser(users[i].id, email, DisplayName(users[i])))
  {
    FindFirst(users, email, i);
  }

  lemma {:induction false} FindFirst(users: seq<UserRecord>, email: string, i: nat)
    requires i < |users| && users[i].email == email
    requires forall j :: 0 <= j < i ==> users[j].email != email
    ensures FindByEmail(users, email) == Some(users[i])
  {
    if i > 0 {
      FindFirst(users[1..], email, i - 1);
    }
  }

  // ---------------------------------------------------------------------------
  // Session

  datatype SessionUser = SessionUser(id: Option<string>, name: Option<string>, email: Option<string>, image: Option<string>)

  /** A session as `getServerSession` returns it. */
  datatype Session = Session(user: Option<SessionUser>, expires: string)

  /** `session?.user?.id`. */
  function UserId(session: Option<Session>): (id: Option<string>)
    ensures id.Some? <==> session.Some? && session.value.user.Some? && session.value.user.value.id.Some?
    ensures id.Some? ==> id == session.value.user.value.id
  {
    if session.Some? && session.value.user.Some? then session.value.user.value.id else None
  }

  /** The `session` callback: the user gets the token's subject as its id;
      every other field of the session and of its user is kept. */
  function SessionCallback(session: Session, sub: Option<string>): (r: Session)
    ensures r.expires == session.expires
    ensures r.user.Some? && r.user.value.id == sub
    ensures session.user.Some? ==> r.user.value.(id := session.user.value.id) == session.user.value
    ensures session.user.None? ==> r.user.value == SessionUser(sub, None, None, None)
  {
    var base := session.user.GetOr(SessionUser(None, None, None, None));
    session.(user := Some(base.(id := sub)))
  }

  // ---------------------------------------------------------------------------
  // Redirect

  /** The `redirect` callback. `origin(u)` is `new URL(u).origin`, `None`
      when `u` does not parse (then the callback throws, modelled as `None`).
      A relative path is put under the base URL; an absolute URL is kept only
      when its origin is the base URL; anything else goes to the base URL. The
      result therefore never leaves the base URL's origin. */
  function Redirect(url: string, baseUrl: string, origin: string -> Option<string>): (r: Option<string>)
    ensures |url| > 0 && url[0] == '/' ==> r == Some(baseUrl + url)
    ensures !(|url| > 0 && url[0] == '/') && origin(url) == Some(baseUrl) ==> r == Some(url)
    ensures !(|url| > 0 && url[0] == '/') && origin(url).Some? && origin(url) != Some(baseUrl) ==> r == Some(baseUrl)
    ensures !(|url| > 0 && url[0] == '/') && origin(url).None? ==> r.None?
    ensures r.Some? ==> baseUrl <= r.value || origin(r.value) == Some(baseUrl)
  {
    if |url| > 0 && url[0] == '/' then Some(baseUrl + url)
    else match origin(url)
      case None => None
      case Some(o) => if o == baseUrl then Some(url) else Some(baseUrl)
  }
}
