/**
 * The session store of the client: three state cells (the user and the two
 * tokens) mirrored into the browser's key/value storage, hydrated from it when
 * the provider mounts, and changed only by `setAuthData`, `logout` and `login`.
 */
module AuthContext {
  import opened Wrappers
  import opened Text
  import opened Json
  import opened Js
  import opened Http

  /** The signed-in user. `role` and `organization` are numeric ids. */
  datatype User = User(email: string, role: int, organization: int)

  /** The provider's three state cells. */
  datatype Session = Session(user: Option<User>, accessToken: Option<string>, refreshToken: Option<string>)

  const SignedOut := Session(None, None, None)

  const UserKey := "user"
  const AccessTokenKey := "accessToken"
  const RefreshTokenKey := "refreshToken"

  /** The storage keys the session owns. */
  const SessionKeys: set<string> := {UserKey, AccessTokenKey, RefreshTokenKey}

  // ---------------------------------------------------------------- the stored user

  const UserPrefix := "{\"email\":"
  const RolePrefix := ",\"role\":"
  const OrganizationPrefix := ",\"organization\":"

  /** `JSON.stringify(user)` for a user whose properties are email, role and organization, in that order. */
  function UserToJson(u: User): string {
    UserPrefix + (Quote(u.email) + RoleText(u.role, OrganizationText(u.organization)))
  }

  /** The tail of a stored user after its email: `,"role":` and the role, then `rest`. */
  function RoleText(role: int, rest: string): string {
    RolePrefix + IntToString(role) + rest
  }

  /** The last member of a stored user and the closing brace. */
  function OrganizationText(organization: int): (s: string)
    ensures OrganizationPrefix <= s
  {
    OrganizationPrefix + IntToString(organization) + "}"
  }

  /** `JSON.parse` of a stored user, for texts of the shape `UserToJson` writes; any other text gives None. */
  function UserFromJson(s: string): Option<User> {
    if UserPrefix <= s then ReadEmail(s[|UserPrefix|..]) else None
  }

  function ReadEmail(s: string): Option<User> {
    match ParseString(s)
    case None => None
    case Some(p) => ReadRole(p.0, p.1)
  }

  function ReadRole(email: string, s: string): Option<User> {
    if !(RolePrefix <= s) then None
    else
      match ParseInteger(s[|RolePrefix|..])
      case None => None
      case Some(p) => ReadOrganization(email, p.0, p.1)
  }

  function ReadOrganization(email: string, role: int, s: string): Option<User> {
    if !(OrganizationPrefix <= s) then None
    else
      match ParseInteger(s[|OrganizationPrefix|..])
      case None => None
      case Some(p) => if p.1 == "}" then Some(User(email, role, p.0)) else None
  }

  lemma ReadOrganizationRoundTrip(email: string, role: int, organization: int)
    ensures ReadOrganization(email, role, OrganizationText(organization)) == Some(User(email, role, organization))
  {
    var s := OrganizationText(organization);
    assert s[|OrganizationPrefix|..] == IntToString(organization) + "}";
    IntegerRoundTrip(organization, "}");
  }

  lemma ReadRoleRoundTrip(email: string, role: int, rest: string)
    requires OrganizationPrefix <= rest
    ensures ReadRole(email, RoleText(role, rest)) == ReadOrganization(email, role, rest)
  {
    var s := RoleText(role, rest);
    assert s[|RolePrefix|..] == IntToString(role) + rest;
    assert rest[0] == ',';
    IntegerRoundTrip(role, rest);
  }

  lemma ReadEmailRoundTrip(email: string, rest: string)
    ensures ReadEmail(Quote(email) + rest) == ReadRole(email, rest)
  {
    QuoteRoundTrip(email, rest);
  }

  lemma UserPrefixRoundTrip(body: string)
    ensures UserFromJson(UserPrefix + body) == ReadEmail(body)
  {
    assert (UserPrefix + body)[|UserPrefix|..] == body;
  }

  /** The stored text of a user reads back as that same user. */
  lemma UserJsonRoundTrip(u: User)
    ensures UserFromJson(UserToJson(u)) == Some(u)
  {
    var r2 := OrganizationText(u.organization);
    var r1 := RoleText(u.role, r2);
    UserPrefixRoundTrip(Quote(u.email) + r1);
    ReadEmailRoundTrip(u.email, r1);
    ReadRoleRoundTrip(u.email, u.role, r2);
    ReadOrganizationRoundTrip(u.email, u.role, u.organization);
  }

  // ---------------------------------------------------------------- storage

  /** `localStorage.getItem(key)`: the stored text, or null. */
  function GetItem(storage: map<string, string>, key: string): (r: Option<string>)
    ensures r.Some? <==> key in storage
    ensures r.Some? ==> r.value == storage[key]
  {
    if key in storage then Some(storage[key]) else None
  }

  /** Why hydration throws: `JSON.parse` cannot read the stored user text (or it is JSON this model does not read). */
  datatype HydrationError = UnreadableUser(text: string)

  /**
   * The provider's initial state: `JSON.parse(getItem("user") || "null")` and
   * the two tokens as stored. A missing or empty user entry reads as null.
   */
  function Hydrate(storage: map<string, string>): Result<Session, HydrationError> {
    var text := if UserKey in storage && storage[UserKey] != "" then storage[UserKey] else "null";
    var access := GetItem(storage, AccessTokenKey);
    var refresh := GetItem(storage, RefreshTokenKey);
    if text == "null" then Ok(Session(None, access, refresh))
    else
      match UserFromJson(text)
      case Some(u) => Ok(Session(Some(u), access, refresh))
      case None => Err(UnreadableUser(text))
  }

  /** The storage after `setAuthData(u, access, refresh)`: the three session keys written, nothing else touched. */
  function StoreSession(storage: map<string, string>, u: User, access: string, refresh: string): (r: map<string, string>)
    ensures r.Keys == storage.Keys + SessionKeys
    ensures forall k :: k in storage && k !in SessionKeys ==> r[k] == storage[k]
    ensures r[UserKey] == UserToJson(u) && r[AccessTokenKey] == access && r[RefreshTokenKey] == refresh
  {
    storage[UserKey := UserToJson(u)][AccessTokenKey := access][RefreshTokenKey := refresh]
  }

  /** The storage after `logout()`: exactly the three session keys removed. */
  function ClearSession(storage: map<string, string>): (r: map<string, string>)
    ensures r.Keys == storage.Keys - SessionKeys
    ensures forall k :: k in r ==> r[k] == storage[k]
  {
    storage - SessionKeys
  }

  /** Hydrating right after `setAuthData` gives back the same user and tokens. */
  lemma HydrateAfterStore(storage: map<string, string>, u: User, access: string, refresh: string)
    ensures Hydrate(StoreSession(storage, u, access, refresh)) == Ok(Session(Some(u), Some(access), Some(refresh)))
  {
    var r := StoreSession(storage, u, access, refresh);
    UserJsonRoundTrip(u);
    assert UserToJson(u)[0] == '{';
    assert r[UserKey] != "" && r[UserKey] != "null";
  }

  /** Hydrating right after `logout` gives the signed-out session, whatever else is stored. */
  lemma HydrateAfterClear(storage: map<string, string>)
    ensures Hydrate(ClearSession(storage)) == Ok(SignedOut)
  {
  }

  /** Storage without any session key hydrates to the signed-out session. */
  lemma HydrateWithoutSessionKeys(storage: map<string, string>)
    requires storage.Keys !! SessionKeys
    ensures Hydrate(storage) == Ok(SignedOut)
  {
  }

  /** `logout` twice leaves the storage as `logout` once. */
  lemma ClearIdempotent(storage: map<string, string>)
    ensures ClearSession(ClearSession(storage)) == ClearSession(storage)
  {
  }

  /** An empty stored user text reads as null, like a missing one (`"" || "null"`). */
  lemma EmptyUserTextIsSignedOut(storage: map<string, string>)
    requires UserKey in storage && storage[UserKey] == ""
    ensures Hydrate(storage).Ok? && Hydrate(storage).value.user == None
  {
  }

  /** A user and an access token are present together. */
  predicate Paired(s: Session) {
    s.user.Some? <==> s.accessToken.Some?
  }

  /** `setAuthData` and `logout` leave a paired session, but hydration does not enforce pairing. */
  lemma PairingNotEnforcedByHydration()
    ensures Hydrate(map[AccessTokenKey := "t"]) == Ok(Session(None, Some("t"), None))
    ensures !Paired(Session(None, Some("t"), None))
  {
  }

  // ---------------------------------------------------------------- the provider

  /** What `response.json()` of a successful login holds. */
  datatype LoginReply = LoginReply(user: User, accessToken: string, refreshToken: string)

  /** The reply to the login request: `response.ok` and the decoded body. */
  datatype LoginResponse = LoginResponse(ok: bool, data: LoginReply)

  const LoginFailed := "Login failed"

  /** The request `login(email, password)` sends. */
  function LoginRequest(email: string, password: string): (r: Request)
    ensures r.verb == Post && r.url == "/api/login"
    ensures r.body == Some(map["email" := Str(email), "password" := Str(password)])
  {
    Request(Post, "/api/login", map["Content-Type" := "application/json"],
            Some(map["email" := Str(email), "password" := Str(password)]))
  }

  class AuthProvider {
    var user: Option<User>
    var accessToken: Option<string>
    var refreshToken: Option<string>
    /** The browser's `localStorage`. */
    var storage: map<string, string>

    function State(): Session
      reads this
    {
      Session(user, accessToken, refreshToken)
    }

    /** The cells hold exactly what a reload would hydrate from storage. */
    predicate Persisted()
      reads this
    {
      Hydrate(storage) == Ok(State())
    }

    /** Mounting the provider over `initialStorage` (which must hydrate: otherwise the source throws). */
    constructor (initialStorage: map<string, string>)
      requires Hydrate(initialStorage).Ok?
      ensures storage == initialStorage
      ensures State() == Hydrate(initialStorage).value
      ensures Persisted()
    {
      var s := Hydrate(initialStorage).value;
      user := s.user;
      accessToken := s.accessToken;
      refreshToken := s.refreshToken;
      storage := initialStorage;
    }

    method SetAuthData(u: User, access: string, refresh: string)
      modifies this
      ensures State() == Session(Some(u), Some(access), Some(refresh))
      ensures storage == StoreSession(old(storage), u, access, refresh)
      ensures Persisted() && Paired(State())
    {
      user := Some(u);
      accessToken := Some(access);
      refreshToken := Some(refresh);

      storage := storage[UserKey := UserToJson(u)];
      storage := storage[AccessTokenKey := access];
      storage := storage[RefreshTokenKey := refresh];
      HydrateAfterStore(old(storage), u, access, refresh);
    }

    method Logout()
      modifies this
      ensures State() == SignedOut
      ensures storage == ClearSession(old(storage))
      ensures Persisted() && Paired(State())
    {
      user := None;
      accessToken := None;
      refreshToken := None;

      storage := storage - {UserKey};
      storage := storage - {AccessTokenKey};
      storage := storage - {RefreshTokenKey};
      assert storage == ClearSession(old(storage));
      HydrateAfterClear(old(storage));
    }

    /**
     * `login(email, password)`: sends `request`; a reply that is not ok throws
     * and changes nothing, an ok reply installs its user and tokens.
     */
    method Login(email: string, password: string, response: LoginResponse) returns (request: Request, outcome: Result<(), string>)
      requires Persisted()
      modifies this
      ensures request == LoginRequest(email, password)
      ensures !response.ok ==> outcome == Err(LoginFailed) && State() == old(State()) && storage == old(storage)
      ensures response.ok ==> outcome == Ok(())
      ensures response.ok ==> State() == Session(Some(response.data.user), Some(response.data.accessToken), Some(response.data.refreshToken))
      ensures response.ok ==> storage == StoreSession(old(storage), response.data.user, response.data.accessToken, response.data.refreshToken)
      ensures Persisted()
    {
      request := LoginRequest(email, password);
      if !response.ok {
        outcome := Err(LoginFailed);
        return;
      }
      SetAuthData(response.data.user, response.data.accessToken, response.data.refreshToken);
      outcome := Ok(());
    }
  }

  const OutsideProvider := "useAuth must be used within an AuthProvider"

  /** `useAuth()`: the nearest provider's value, or a throw when there is none. */
  function UseAuth(context: Option<Session>): (r: Result<Session, string>)
    ensures r.Ok? <==> context.Some?
    ensures r.Ok? ==> r.value == context.value
    ensures r.Err? ==> r.error == OutsideProvider
  {
    match context
    case Some(s) => Ok(s)
    case None => Err(OutsideProvider)
  }
}
