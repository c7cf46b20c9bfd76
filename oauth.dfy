/** The sign-in routes: the Google configuration guard, the session cookie, the
    DigiLocker authorisation URL and callback resolver, and logout. */
module OAuth {
  import opened Wrappers
  import opened Text
  import opened Users
  import Uri

  /** The environment variables the routes read; an unset variable is `None`. */
  datatype Env = Env(
    googleClientId: Option<string>,
    googleClientSecret: Option<string>,
    corsOrigin: Option<string>,
    jwtCookieExpireDays: int,
    nodeEnv: Option<string>,
    digiLockerClientId: Option<string>,
    digiLockerRedirectUri: Option<string>)

  /** A value as a template literal writes it: an unset variable becomes "undefined". */
  function Render(v: Option<string>): string {
    match v
    case Some(s) => s
    case None => "undefined"
  }

  /** JavaScript truthiness of an optional string: set and non-empty. */
  predicate Truthy(v: Option<string>) {
    v.Some? && v.value != ""
  }

  const MsPerDay := 24 * 60 * 60 * 1000

  datatype CookieOptions = CookieOptions(expires: int, httpOnly: bool, secure: bool)

  /** The session cookie carries the signed token of a user (the signature itself is not
      modelled) or a literal text. */
  datatype CookieValue = SignedToken(userId: nat) | Text(text: string)

  datatype Cookie = Cookie(name: string, value: CookieValue, options: CookieOptions)

  datatype Response =
    | Redirect(location: string, cookie: Option<Cookie>)
    | BeginGoogleSignIn(scope: seq<string>)
    | JsonReply(status: nat, success: bool, message: string, cookie: Option<Cookie>)

  // ---------------------------------------------------------------------------
  // GET /auth/google

  /** The guard in front of Google sign-in. */
  function GoogleStart(env: Env): Response {
    if !Truthy(env.googleClientId) || !Truthy(env.googleClientSecret) then
      Redirect(Render(env.corsOrigin) + "/login?error=oauth_not_configured", None)
    else
      BeginGoogleSignIn(["profile", "email"])
  }

  /** Sign-in starts exactly when both credentials are set and non-empty; otherwise the
      browser goes back to the login page with `oauth_not_configured`. */
  lemma GoogleStartGuard(env: Env)
    ensures GoogleStart(env).BeginGoogleSignIn? <==> Truthy(env.googleClientId) && Truthy(env.googleClientSecret)
    ensures GoogleStart(env).BeginGoogleSignIn? ==> GoogleStart(env).scope == ["profile", "email"]
    ensures !GoogleStart(env).BeginGoogleSignIn? ==>
      GoogleStart(env) == Redirect(Render(env.corsOrigin) + "/login?error=oauth_not_configured", None)
  {
  }

  // ---------------------------------------------------------------------------
  // The session cookie

  /** The options object both callbacks build: it starts without `secure`, and the
      production branch sets it. */
  method SessionCookieOptions(env: Env, now: int) returns (options: CookieOptions)
    ensures options.expires == now + env.jwtCookieExpireDays * 86400000
    ensures options.httpOnly
    ensures options.secure <==> env.nodeEnv == Some("production")
    ensures options == CookieOptionsFor(env, now)
  {
    options := CookieOptions(now + env.jwtCookieExpireDays * MsPerDay, true, false);
    if env.nodeEnv == Some("production") {
      options := options.(secure := true);
    }
  }

  /** The options as a value, for the responses below; `SessionCookieOptions` builds
      the same value step by step. */
  function CookieOptionsFor(env: Env, now: int): CookieOptions {
    CookieOptions(now + env.jwtCookieExpireDays * MsPerDay, true, env.nodeEnv == Some("production"))
  }

  /** The session cookie for a signed-in user. */
  function SessionCookie(u: User, env: Env, now: int): Cookie {
    Cookie("token", SignedToken(u.id), CookieOptionsFor(env, now))
  }

  // ---------------------------------------------------------------------------
  // GET /auth/google/callback

  /** The handler after Google sign-in succeeded with user `u`; `signingFails` stands for
      a token signer that throws. */
  function GoogleCallback(u: User, signingFails: bool, env: Env, now: int): Response {
    if signingFails then Redirect(Render(env.corsOrigin) + "/login?error=oauth_failed", None)
    else Redirect(Render(env.corsOrigin) + "/dashboard?auth=success", Some(SessionCookie(u, env, now)))
  }

  // ---------------------------------------------------------------------------
  // GET /auth/digilocker

  /** The authorisation URL: the redirect URI is percent-encoded, the client id and the
      session id are written as they are. */
  function AuthUrl(env: Env, sessionId: string): string {
    "https://api.digitallocker.gov.in/public/oauth2/1/authorize?"
      + "response_type=code"
      + "&client_id=" + Render(env.digiLockerClientId)
      + "&redirect_uri=" + Uri.Encode(Render(env.digiLockerRedirectUri))
      + "&state=" + sessionId
      + "&scope=BasicProfile"
  }

  /** The redirect URI's parameter decodes back to the configured URI and holds no
      character that could end the parameter early. */
  lemma AuthUrlRedirectParameter(env: Env)
    ensures var encoded := Uri.Encode(Render(env.digiLockerRedirectUri));
      && Uri.Decode(encoded) == Some(Render(env.digiLockerRedirectUri))
      && '&' !in encoded && '#' !in encoded
  {
    Uri.DecodeEncode(Render(env.digiLockerRedirectUri));
    Uri.EncodeStaysOneParameter(Render(env.digiLockerRedirectUri));
  }

  // ---------------------------------------------------------------------------
  // GET /auth/digilocker/callback

  /** The parts of a DigiLocker profile the callback reads; `name` may be missing, and
      reading it then throws. */
  datatype DigiLockerProfile = DigiLockerProfile(
    id: string,
    name: Option<string>,
    email: string,
    mobile: Option<string>,
    aadhaar: Option<string>,
    dob: Option<string>,
    gender: Option<string>)

  /** `name.split(' ')[0]`. */
  function FirstName(name: string): string {
    Split(name, ' ')[0]
  }

  /** `name.split(' ').slice(1).join(' ')`. */
  function LastName(name: string): string {
    Join(Split(name, ' ')[1..], ' ')
  }

  /** A name with a space is its first and last names joined by a space, and the first
      name holds no space. */
  lemma NameRoundTrip(name: string)
    requires ' ' in name
    ensures FirstName(name) + " " + LastName(name) == name
    ensures ' ' !in FirstName(name)
  {
    var parts := Split(name, ' ');
    SplitCount(name, ' ');
    JoinSplit(name, ' ');
    assert Join(parts, ' ') == parts[0] + [' '] + Join(parts[1..], ' ');
  }

  /** A name without a space is all first name. */
  lemma NameWithoutSpace(name: string)
    requires ' ' !in name
    ensures FirstName(name) == name && LastName(name) == ""
  {
    SplitNoSeparator(name, ' ');
  }

  /** `profile.mobile || '0000000000'`. */
  function PhoneOf(p: DigiLockerProfile): string {
    if Truthy(p.mobile) then p.mobile.value else PlaceholderPhone
  }

  /** The record created for a new DigiLocker user; the schema's defaults for the flags
      the callback does not set are taken to be false. */
  function NewDigiLockerUser(id: nat, p: DigiLockerProfile, password: string): User
    requires p.name.Some?
  {
    User(id, None, Some(p.id), FirstName(p.name.value), LastName(p.name.value), p.email, PhoneOf(p),
      p.aadhaar, p.dob, p.gender, None, password, Verification(true, false, true, false), CitizenRole)
  }

  /** The record after linking: the DigiLocker id is set, and the Aadhaar flag is raised
      when it was down and the profile carries an Aadhaar number. */
  function LinkDigiLocker(u: User, p: DigiLockerProfile): User {
    var linked := u.(digiLockerId := Some(p.id));
    if !linked.verification.aadhaar && Truthy(p.aadhaar) then
      linked.(verification := linked.verification.(aadhaar := true))
    else linked
  }

  /** What the resolver does to the table and which user it goes on with. */
  function DigiLockerResolve(users: seq<User>, nextId: nat, p: DigiLockerProfile, password: string, fails: set<StoreCall>): Resolution {
    if FirstLookup in fails then Failed(users, nextId, StoreFailure)
    else match FindOne(users, ByDigiLockerId(p.id))
      case Some(i) => Resolution(users, nextId, Ok(users[i]))
      case None => DigiLockerLinkOrCreate(users, nextId, p, password, fails)
  }

  /** The resolver past a DigiLocker-id lookup that found nothing. */
  function DigiLockerLinkOrCreate(users: seq<User>, nextId: nat, p: DigiLockerProfile, password: string, fails: set<StoreCall>): Resolution {
    if SecondLookup in fails then Failed(users, nextId, StoreFailure)
    else match FindOne(users, ByEmailOrAadhaar(p.email, p.aadhaar))
      case Some(i) =>
        if Write in fails then Failed(users, nextId, StoreFailure)
        else
          var linked := LinkDigiLocker(users[i], p);
          Resolution(users[i := linked], nextId, Ok(linked))
      case None =>
        if p.name.None? then Failed(users, nextId, MalformedProfile)
        else if Write in fails then Failed(users, nextId, StoreFailure)
        else
          var u := NewDigiLockerUser(nextId, p, password);
          Resolution(users + [u], nextId + 1, Ok(u))
  }

  /** The response once the resolver is done: success sets the session cookie and goes to
      the dashboard; any error goes to the login page and sets no cookie. */
  function DigiLockerRedirect(result: Result<User, LoginError>, signingFails: bool, env: Env, now: int): Response {
    if result.Ok? && !signingFails then
      Redirect(Render(env.corsOrigin) + "/dashboard?auth=success&verified=true", Some(SessionCookie(result.value, env, now)))
    else
      Redirect(Render(env.corsOrigin) + "/login?error=digilocker_failed", None)
  }

  /** Linking only sets the DigiLocker id and may raise the Aadhaar flag: the flag after
      is up exactly when it was up before or the profile carries an Aadhaar number, and no
      other field changes. */
  lemma LinkDigiLockerFlags(u: User, p: DigiLockerProfile)
    ensures var v := LinkDigiLocker(u, p);
      && v.digiLockerId == Some(p.id)
      && v.verification.aadhaar == (u.verification.aadhaar || Truthy(p.aadhaar))
      && v.verification.email == u.verification.email && v.verification.phone == u.verification.phone
      && v.verification.pan == u.verification.pan
      && FlagsLe(u.verification, v.verification)
      && v == u.(digiLockerId := v.digiLockerId, verification := v.verification)
  {
  }

  /** A record already linked to the DigiLocker id is used and nothing is written. */
  lemma DigiLockerFastPath(users: seq<User>, nextId: nat, p: DigiLockerProfile, password: string, fails: set<StoreCall>, i: nat)
    requires FirstLookup !in fails
    requires i < |users| && users[i].digiLockerId == Some(p.id)
    requires forall j :: 0 <= j < i ==> users[j].digiLockerId != Some(p.id)
    ensures DigiLockerResolve(users, nextId, p, password, fails) == Resolution(users, nextId, Ok(users[i]))
  {
    var k := FindOne(users, ByDigiLockerId(p.id));
    assert k.Some?;
    assert !(k.value < i) && !(i < k.value);
  }

  /** An Aadhaar number the profile does not carry matches nothing: the link lookup is
      then by email alone. */
  lemma AbsentAadhaarMatchesNothing(users: seq<User>, email: string)
    ensures FindOne(users, ByEmailOrAadhaar(email, None)) == FindOne(users, ByEmail(email))
  {
    var a := FindOne(users, ByEmailOrAadhaar(email, None));
    var b := FindOne(users, ByEmail(email));
    assert forall j :: 0 <= j < |users| ==> Matches(users[j], ByEmailOrAadhaar(email, None)) == Matches(users[j], ByEmail(email));
    if a.Some? && b.Some? {
      assert !(a.value < b.value) && !(b.value < a.value);
    }
  }

  /** With no record linked to the DigiLocker id and one matching by email or Aadhaar, that
      record is linked in place: no record is added and no other record is touched. */
  lemma DigiLockerLinkPath(users: seq<User>, nextId: nat, p: DigiLockerProfile, password: string, fails: set<StoreCall>)
    requires fails == {}
    requires FindOne(users, ByDigiLockerId(p.id)).None?
    requires FindOne(users, ByEmailOrAadhaar(p.email, p.aadhaar)).Some?
    ensures var r := DigiLockerResolve(users, nextId, p, password, fails);
      var i := FindOne(users, ByEmailOrAadhaar(p.email, p.aadhaar)).value;
      && |r.users| == |users| && r.nextId == nextId
      && (forall j :: 0 <= j < |users| && j != i ==> r.users[j] == users[j])
      && r.users[i] == LinkDigiLocker(users[i], p)
      && r.users[i].digiLockerId == Some(p.id)
      && r.users[i] == users[i].(digiLockerId := r.users[i].digiLockerId, verification := r.users[i].verification)
      && r.users[i].verification.aadhaar == (users[i].verification.aadhaar || Truthy(p.aadhaar))
      && FlagsLe(users[i].verification, r.users[i].verification)
      && (users[i].email == p.email || (p.aadhaar.Some? && users[i].aadhaar == p.aadhaar))
      && r.result == Ok(r.users[i])
  {
    var i := FindOne(users, ByEmailOrAadhaar(p.email, p.aadhaar)).value;
    LinkDigiLockerFlags(users[i], p);
  }

  /** With no record matching, exactly one record is appended: it carries the DigiLocker
      id, the split name, the profile's email and Aadhaar number, the mobile number or the
      placeholder, the citizen role and verified email and Aadhaar flags. */
  lemma DigiLockerCreatePath(users: seq<User>, nextId: nat, p: DigiLockerProfile, password: string, fails: set<StoreCall>)
    requires fails == {} && p.name.Some?
    requires FindOne(users, ByDigiLockerId(p.id)).None?
    requires FindOne(users, ByEmailOrAadhaar(p.email, p.aadhaar)).None?
    ensures var r := DigiLockerResolve(users, nextId, p, password, fails);
      && |r.users| == |users| + 1 && r.users[..|users|] == users && r.nextId == nextId + 1
      && var u := r.users[|users|];
      && r.result == Ok(u) && u.id == nextId
      && u == NewDigiLockerUser(nextId, p, password)
      && u.digiLockerId == Some(p.id) && u.googleId.None? && u.email == p.email && u.aadhaar == p.aadhaar
      && u.firstName == FirstName(p.name.value) && u.lastName == LastName(p.name.value)
      && u.phone == (if Truthy(p.mobile) then p.mobile.value else "0000000000")
      && u.dateOfBirth == p.dob && u.gender == p.gender && u.avatar.None? && u.password == password
      && u.role == "citizen" && u.verification == Verification(true, false, true, false)
  {
    var r := DigiLockerResolve(users, nextId, p, password, fails);
    assert r.users == users + [NewDigiLockerUser(nextId, p, password)];
  }

  /** An error from the resolver leaves the table unchanged, and any error, a throwing
      token signer included, sends the browser to the login page with `digilocker_failed`
      and no cookie. */
  lemma DigiLockerErrorsWriteNothing(users: seq<User>, nextId: nat, p: DigiLockerProfile, password: string,
                                     fails: set<StoreCall>, signingFails: bool, env: Env, now: int)
    ensures var r := DigiLockerResolve(users, nextId, p, password, fails);
      r.result.Err? ==> r.users == users && r.nextId == nextId
    ensures var r := DigiLockerResolve(users, nextId, p, password, fails);
      r.result.Err? || signingFails ==>
        DigiLockerRedirect(r.result, signingFails, env, now) ==
          Redirect(Render(env.corsOrigin) + "/login?error=digilocker_failed", None)
  {
  }

  /** The token is signed after the record is saved, so a signer that throws does not undo
      the write: a new profile still leaves its record in the table while the browser is
      sent to the login page with `digilocker_failed`. */
  lemma DigiLockerSignerFailureKeepsWrite(users: seq<User>, nextId: nat, p: DigiLockerProfile, password: string,
                                          env: Env, now: int)
    requires p.name.Some?
    requires FindOne(users, ByDigiLockerId(p.id)).None?
    requires FindOne(users, ByEmailOrAadhaar(p.email, p.aadhaar)).None?
    ensures var r := DigiLockerResolve(users, nextId, p, password, {});
      && |r.users| == |users| + 1 && r.users[..|users|] == users && r.users[|users|].digiLockerId == Some(p.id)
      && DigiLockerRedirect(r.result, true, env, now) == Redirect(Render(env.corsOrigin) + "/login?error=digilocker_failed", None)
  {
    DigiLockerCreatePath(users, nextId, p, password, {});
  }

  /** A resolution keeps the table well formed, keeps every record at its place and never
      turns a flag off. */
  lemma DigiLockerKeepsTable(users: seq<User>, nextId: nat, p: DigiLockerProfile, password: string, fails: set<StoreCall>)
    requires WellFormed(users, nextId)
    ensures var r := DigiLockerResolve(users, nextId, p, password, fails);
      WellFormed(r.users, r.nextId) && KeepsRecords(users, r.users)
  {
    if FirstLookup in fails || FindOne(users, ByDigiLockerId(p.id)).Some? {
      assert DigiLockerResolve(users, nextId, p, password, fails).users == users;
      assert KeepsRecords(users, users);
    } else {
      DigiLockerLinkOrCreateKeepsTable(users, nextId, p, password, fails);
    }
  }

  lemma DigiLockerLinkOrCreateKeepsTable(users: seq<User>, nextId: nat, p: DigiLockerProfile, password: string, fails: set<StoreCall>)
    requires WellFormed(users, nextId)
    requires FindOne(users, ByDigiLockerId(p.id)).None?
    ensures var r := DigiLockerLinkOrCreate(users, nextId, p, password, fails);
      WellFormed(r.users, r.nextId) && KeepsRecords(users, r.users)
  {
    if SecondLookup in fails || Write in fails {
      assert DigiLockerLinkOrCreate(users, nextId, p, password, fails).users == users;
      assert KeepsRecords(users, users);
    } else {
      var e := FindOne(users, ByEmailOrAadhaar(p.email, p.aadhaar));
      assert forall j :: 0 <= j < |users| ==> !Matches(users[j], ByDigiLockerId(p.id));
      if e.Some? {
        var i := e.value;
        var v := LinkDigiLocker(users[i], p);
        LinkDigiLockerFlags(users[i], p);
        ReplaceKeepsTable(users, nextId, i, v);
        assert DigiLockerLinkOrCreate(users, nextId, p, password, fails).users == users[i := v];
      } else if p.name.None? {
        assert DigiLockerLinkOrCreate(users, nextId, p, password, fails).users == users;
        assert KeepsRecords(users, users);
      } else {
        var v := NewDigiLockerUser(nextId, p, password);
        AppendKeepsTable(users, nextId, v);
        assert DigiLockerLinkOrCreate(users, nextId, p, password, fails) == Resolution(users + [v], nextId + 1, Ok(v));
      }
    }
  }

  /** Once a DigiLocker sign-in succeeded, the same profile takes the fast path: the same
      record comes back and nothing is written. */
  lemma DigiLockerSecondSignIn(users: seq<User>, nextId: nat, p: DigiLockerProfile, password: string, password2: string, fails: set<StoreCall>)
    requires DigiLockerResolve(users, nextId, p, password, fails).result.Ok?
    ensures var r := DigiLockerResolve(users, nextId, p, password, fails);
      DigiLockerResolve(r.users, r.nextId, p, password2, {}) == Resolution(r.users, r.nextId, r.result)
  {
    var r := DigiLockerResolve(users, nextId, p, password, fails);
    var g := FindOne(users, ByDigiLockerId(p.id));
    if g.Some? {
      DigiLockerFastPath(users, nextId, p, password2, {}, g.value);
    } else {
      var e := FindOne(users, ByEmailOrAadhaar(p.email, p.aadhaar));
      if e.Some? {
        DigiLockerFastPath(r.users, r.nextId, p, password2, {}, e.value);
      } else {
        DigiLockerFastPath(r.users, r.nextId, p, password2, {}, |users|);
      }
    }
  }

  /** Both callbacks set the same session cookie on success: the signed token of the
      user, expiring the configured number of days after `now`, always `httpOnly`, and
      `secure` exactly in production. */
  lemma CallbackCookies(u: User, env: Env, now: int)
    ensures GoogleCallback(u, false, env, now).cookie == DigiLockerRedirect(Ok(u), false, env, now).cookie
    ensures var c := GoogleCallback(u, false, env, now).cookie;
      && c.Some? && c.value.name == "token" && c.value.value == SignedToken(u.id)
      && c.value.options.expires == now + env.jwtCookieExpireDays * 86400000
      && c.value.options.httpOnly
      && (c.value.options.secure <==> env.nodeEnv == Some("production"))
    ensures GoogleCallback(u, true, env, now) == Redirect(Render(env.corsOrigin) + "/login?error=oauth_failed", None)
  {
  }

  // ---------------------------------------------------------------------------
  // POST /auth/logout

  function Logout(now: int): Response {
    JsonReply(200, true, "User logged out successfully",
      Some(Cookie("token", Text("none"), CookieOptions(now + 10 * 1000, true, false))))
  }

  /** Logout overwrites the token with "none", expiring ten seconds later, and reports
      success. */
  lemma LogoutClearsToken(now: int)
    ensures var r := Logout(now);
      && r.JsonReply? && r.status == 200 && r.success && r.message == "User logged out successfully"
      && r.cookie.Some? && r.cookie.value.name == "token" && r.cookie.value.value == Text("none")
      && r.cookie.value.options.expires - now == 10000 && r.cookie.value.options.httpOnly
  {
  }
}
