/**
 The credential lifecycle: users, refresh sessions, one-time tokens and every JWT ever signed, and what
 one call of AuthService does to them when any of its repository, hashing, signing or random calls fails.
 */
module AuthModel {
  import opened Options
  import opened Password

  type Time = int  // microseconds, the resolution of the database
  type UserId = nat
  type Secret = string

  const SECOND: Time := 1_000_000
  const HOUR: Time := 3600 * SECOND
  const DEFAULT_SESSION_TTL: Time := 30 * 24 * HOUR
  const VERIFICATION_TTL: Time := 24 * HOUR
  const RESET_TTL: Time := HOUR

  /** The hash of a token; hashing is injective. */
  datatype Digest = Sha256(of: Secret)

  /** A password hash, which compares equal to its own password only. */
  datatype PasswordHash = Bcrypt(of: string)

  datatype User = User(
    email: string, username: string, password: PasswordHash, displayName: string, role: string,
    active: bool, verifiedAt: Option<Time>, lastLoginAt: Option<Time>)

  datatype Session = Session(userId: UserId, expiresAt: Time)

  datatype Purpose = EmailVerification | PasswordReset

  datatype OneTimeToken = OneTimeToken(userId: UserId, purpose: Purpose, expiresAt: Time)

  datatype Claims = Claims(userId: UserId, email: string, username: string, role: string,
                           expiresAt: Time, issuedAt: Time, notBefore: Time)

  datatype Use = Access | Refresh

  /** The call that signed a token; a refresh names the token it redeemed. */
  datatype Via = ByRegister | ByLogin | ByRefresh(redeemed: Secret)

  /** History of a signed token: `stamp` numbers the call that signed it. */
  datatype Jwt = Jwt(claims: Claims, use: Use, stamp: nat, via: Via)

  datatype Config = Config(accessTtl: Time, refreshTtl: Time, sessionTtl: Time)

  datatype State = State(
    users: map<UserId, User>,
    sessions: map<Digest, Session>,
    tokens: map<Digest, OneTimeToken>,
    issued: map<Secret, Jwt>,  // history: the only strings whose signature verifies
    minted: set<Secret>,       // history: every token string ever generated
    now: Time,
    calls: nat)

  const INIT: State := State(map[], map[], map[], map[], {}, 0, 0)

  datatype Error =
    | Weak(verdict: Verdict) | UserAlreadyExists | UserNotFound | InvalidToken | SessionNotFound
    | InvalidCredentials | AccountInactive | TokenRejected | Required | Malformed | Internal

  datatype Reply =
    | Failed(error: Error)
    | Done
    | Registered(userId: UserId, access: Secret, refresh: Secret)
    | SignedIn(userId: UserId, access: Secret, refresh: Secret)
    | Refreshed(access: Secret, refresh: Secret)
    | Verified(userId: UserId)
    | Resent(alreadyVerified: bool)

  /** The fallible calls of the service; none is made twice in one service call. */
  datatype Op =
    | FindByEmail | FindById | HashPassword | CreateUser | SignTokens | CreateSession | TouchLogin
    | FindSession | DeleteSession | DeleteSessions | Random | CreateToken | FindToken | DeleteToken
    | UpdatePassword | MarkVerified

  /** What one call draws from outside: two clock readings, the failing calls, fresh ids and secrets. */
  datatype Env = Env(now: Time, later: Time, faults: set<Op>, userId: UserId,
                     access: Secret, refresh: Secret, oneTime: Secret)

  /** A user id as a string: absent, not a UUID, or one. */
  datatype UserRef = NoId | BadId | Id(id: UserId)

  datatype Call =
    | Register(email: string, username: string, password: string, displayName: string)
    | Login(email: string, password: string)
    | Logout(token: Secret)
    | RefreshTokens(token: Secret)
    | RequestPasswordReset(email: string)
    | ResetPassword(token: Secret, newPassword: string)
    | ChangePassword(user: UserRef, current: string, newPassword: string)
    | VerifyEmail(token: Secret)
    | ResendVerification(email: string)
    | SetActive(account: UserId, active: bool)  // an operator's update of users.is_active

  function Lifetime(c: Config, use: Use): Time {
    if use == Access then c.accessTtl else c.refreshTtl
  }

  /** Time does not run back, ids and secrets are new. */
  predicate Fresh(s: State, e: Env) {
    && s.now <= e.now <= e.later
    && e.userId !in s.users
    && e.access !in s.minted && e.refresh !in s.minted && e.oneTime !in s.minted
    && e.access != e.refresh && e.access != e.oneTime && e.refresh != e.oneTime
  }

  /** NewAuthService replaces a session lifetime that is not positive. */
  function NewConfig(accessTtl: Time, refreshTtl: Time, sessionTtl: Time): Config {
    Config(accessTtl, refreshTtl, if sessionTtl <= 0 then DEFAULT_SESSION_TTL else sessionTtl)
  }

  /** A JWT NumericDate: whole seconds. */
  function FloorSecond(t: Time): (floor: Time)
    ensures floor <= t < floor + 1_000_000 && floor % 1_000_000 == 0
  {
    t - t % SECOND
  }

  function ClaimsFor(id: UserId, u: User, now: Time, ttl: Time): Claims {
    Claims(id, u.email, u.username, u.role, FloorSecond(now + ttl), FloorSecond(now), FloorSecond(now))
  }

  /** "exp" and "nbf", sections 4.1.4 and 4.1.5 of RFC 7519. */
  predicate LiveAt(claims: Claims, t: Time) {
    claims.notBefore <= t < claims.expiresAt
  }

  /** validateToken: access and refresh tokens are signed with one secret, so their use is not seen. */
  predicate Validates(s: State, token: Secret, t: Time) {
    token in s.issued && LiveAt(s.issued[token].claims, t)
  }

  ghost function UserByEmail(users: map<UserId, User>, email: string): Option<UserId> {
    if exists id :: id in users && users[id].email == email
    then var id :| id in users && users[id].email == email; Some(id)
    else None
  }

  predicate UsernameTaken(users: map<UserId, User>, username: string) {
    exists id :: id in users && users[id].username == username
  }

  predicate SessionLive(s: State, h: Digest, t: Time) {
    h in s.sessions && s.sessions[h].expiresAt > t
  }

  predicate TokenLive(s: State, h: Digest, purpose: Purpose, t: Time) {
    h in s.tokens && s.tokens[h].purpose == purpose && s.tokens[h].expiresAt > t
  }

  // ----- single writes -----

  function AddUser(s: State, id: UserId, u: User): State {
    s.(users := s.users[id := u])
  }

  /** GenerateTokenPair. */
  function Mint(c: Config, s: State, id: UserId, via: Via, e: Env): State
    requires id in s.users
  {
    var access := Jwt(ClaimsFor(id, s.users[id], e.now, c.accessTtl), Access, s.calls, via);
    var refresh := Jwt(ClaimsFor(id, s.users[id], e.now, c.refreshTtl), Refresh, s.calls, via);
    s.(issued := s.issued[e.access := access][e.refresh := refresh], minted := s.minted + {e.access, e.refresh})
  }

  function OpenSession(c: Config, s: State, id: UserId, e: Env): State {
    s.(sessions := s.sessions[Sha256(e.refresh) := Session(id, e.later + c.sessionTtl)])
  }

  function CloseSession(s: State, h: Digest): State {
    s.(sessions := s.sessions - {h})
  }

  function CloseSessionsOf(s: State, id: UserId): State {
    s.(sessions := map h | h in s.sessions && s.sessions[h].userId != id :: s.sessions[h])
  }

  function AddToken(s: State, id: UserId, purpose: Purpose, ttl: Time, e: Env): State {
    s.(tokens := s.tokens[Sha256(e.oneTime) := OneTimeToken(id, purpose, e.later + ttl)],
       minted := s.minted + {e.oneTime})
  }

  function DropToken(s: State, h: Digest): State {
    s.(tokens := s.tokens - {h})
  }

  /** UPDATE users ... WHERE id. */
  function PutUser(s: State, id: UserId, u: User): State
    requires id in s.users
  {
    s.(users := s.users[id := u])
  }

  // ----- service calls -----

  /** HashPassword returns an error: bcrypt itself fails, or the password is too long for it. */
  predicate HashFails(password: string, e: Env) {
    HashPassword in e.faults || |password| > BCRYPT_LIMIT
  }

  function NewUser(email: string, username: string, password: string, displayName: string): User {
    User(email, username, Bcrypt(password), displayName, "member", true, None, None)
  }

  /** Registration once the user row is written. */
  function SignUp(c: Config, s: State, e: Env): (State, Reply)
    requires e.userId in s.users
  {
    if SignTokens in e.faults then (s, Failed(Internal))
    else
      var s1 := Mint(c, s, e.userId, ByRegister, e);
      if CreateSession in e.faults then (s1, Failed(Internal))
      else
        var s2 := OpenSession(c, s1, e.userId, e);
        if Random in e.faults || CreateToken in e.faults then (s2, Failed(Internal))
        else (AddToken(s2, e.userId, EmailVerification, VERIFICATION_TTL, e), Registered(e.userId, e.access, e.refresh))
  }

  /** Login once the password has been accepted. */
  function SignIn(c: Config, s: State, id: UserId, e: Env): (State, Reply)
    requires id in s.users
  {
    if SignTokens in e.faults then (s, Failed(Internal))
    else
      var s1 := Mint(c, s, id, ByLogin, e);
      if CreateSession in e.faults then (s1, Failed(Internal))
      else
        var s2 := OpenSession(c, s1, id, e);
        (if TouchLogin in e.faults then s2 else PutUser(s2, id, s2.users[id].(lastLoginAt := Some(e.later))),
         SignedIn(id, e.access, e.refresh))
  }

  /** Refresh once the old token's session and user have been found; the delete's error is ignored. */
  function Rotate(c: Config, s: State, token: Secret, id: UserId, e: Env): (State, Reply)
    requires id in s.users
  {
    var s1 := if DeleteSession in e.faults then s else CloseSession(s, Sha256(token));
    if SignTokens in e.faults then (s1, Failed(Internal))
    else
      var s2 := Mint(c, s1, id, ByRefresh(token), e);
      if CreateSession in e.faults then (s2, Failed(Internal))
      else (OpenSession(c, s2, id, e), Refreshed(e.access, e.refresh))
  }

  ghost function RegisterCall(c: Config, s: State, call: Call, e: Env): (State, Reply)
    requires call.Register?
  {
    var Register(email, username, password, displayName) := call;
    if Judge(password) != Accepted then (s, Failed(Weak(Judge(password))))
    else if FindByEmail in e.faults then (s, Failed(Internal))
    else if UserByEmail(s.users, email).Some? then (s, Failed(UserAlreadyExists))
    else if HashFails(password, e) then (s, Failed(Internal))
    else if CreateUser in e.faults || UsernameTaken(s.users, username) then (s, Failed(Internal))
    else
      SignUp(c, AddUser(s, e.userId, NewUser(email, username, password, displayName)), e)
  }

  ghost function LoginCall(c: Config, s: State, call: Call, e: Env): (State, Reply)
    requires call.Login?
  {
    var found := UserByEmail(s.users, call.email);
    if FindByEmail in e.faults then (s, Failed(Internal))
    else if found.None? then (s, Failed(UserNotFound))
    else
      var id := found.value;
      if !s.users[id].active then (s, Failed(AccountInactive))
      else if s.users[id].password.of != call.password then (s, Failed(InvalidCredentials))
      else SignIn(c, s, id, e)
  }

  function LogoutCall(s: State, call: Call, e: Env): (State, Reply)
    requires call.Logout?
  {
    if call.token == "" then (s, Failed(Required))
    else if DeleteSession in e.faults then (s, Failed(Internal))
    else (CloseSession(s, Sha256(call.token)), Done)
  }

  function RefreshCall(c: Config, s: State, call: Call, e: Env): (State, Reply)
    requires call.RefreshTokens?
  {
    var h := Sha256(call.token);
    if !Validates(s, call.token, e.now) then (s, Failed(TokenRejected))
    else if FindSession in e.faults then (s, Failed(Internal))
    else if !SessionLive(s, h, e.now) then (s, Failed(SessionNotFound))
    else
      var id := s.issued[call.token].claims.userId;
      if FindById in e.faults then (s, Failed(Internal))
      else if id !in s.users then (s, Failed(UserNotFound))
      else if !s.users[id].active then (s, Failed(AccountInactive))
      else Rotate(c, s, call.token, id, e)
  }

  ghost function RequestResetCall(s: State, call: Call, e: Env): (State, Reply)
    requires call.RequestPasswordReset?
  {
    var found := UserByEmail(s.users, call.email);
    if call.email == "" then (s, Failed(Required))
    else if FindByEmail in e.faults then (s, Failed(Internal))
    else if found.None? then (s, Done)
    else if Random in e.faults || CreateToken in e.faults then (s, Failed(Internal))
    else (AddToken(s, found.value, PasswordReset, RESET_TTL, e), Done)
  }

  function ResetPasswordCall(s: State, call: Call, e: Env): (State, Reply)
    requires call.ResetPassword?
  {
    var h := Sha256(call.token);
    if Judge(call.newPassword) != Accepted then (s, Failed(Weak(Judge(call.newPassword))))
    else if FindToken in e.faults then (s, Failed(Internal))
    else if !TokenLive(s, h, PasswordReset, e.now) then (s, Failed(InvalidToken))
    else if HashFails(call.newPassword, e) || UpdatePassword in e.faults then (s, Failed(Internal))
    else
      var id := s.tokens[h].userId;
      var s1 := if id in s.users then PutUser(s, id, s.users[id].(password := Bcrypt(call.newPassword))) else s;
      var s2 := if DeleteToken in e.faults then s1 else DropToken(s1, h);
      (if DeleteSessions in e.faults then s2 else CloseSessionsOf(s2, id), Done)
  }

  function ChangePasswordCall(s: State, call: Call, e: Env): (State, Reply)
    requires call.ChangePassword?
  {
    if call.user == NoId then (s, Failed(Required))
    else if call.user == BadId then (s, Failed(Malformed))
    else
      var id := call.user.id;
      if FindById in e.faults then (s, Failed(Internal))
      else if id !in s.users then (s, Failed(UserNotFound))
      else if s.users[id].password.of != call.current then (s, Failed(InvalidCredentials))
      else if Judge(call.newPassword) != Accepted then (s, Failed(Weak(Judge(call.newPassword))))
      else if HashFails(call.newPassword, e) || UpdatePassword in e.faults then (s, Failed(Internal))
      else
        var s1 := PutUser(s, id, s.users[id].(password := Bcrypt(call.newPassword)));
        (if DeleteSessions in e.faults then s1 else CloseSessionsOf(s1, id), Done)
  }

  function VerifyEmailCall(s: State, call: Call, e: Env): (State, Reply)
    requires call.VerifyEmail?
  {
    var h := Sha256(call.token);
    if call.token == "" then (s, Failed(Required))
    else if FindToken in e.faults then (s, Failed(Internal))
    else if !TokenLive(s, h, EmailVerification, e.now) then (s, Failed(InvalidToken))
    else if MarkVerified in e.faults then (s, Failed(Internal))
    else
      var id := s.tokens[h].userId;
      var s1 := if id in s.users then PutUser(s, id, s.users[id].(verifiedAt := Some(e.later))) else s;
      (if DeleteToken in e.faults then s1 else DropToken(s1, h), Verified(id))
  }

  ghost function ResendCall(s: State, call: Call, e: Env): (State, Reply)
    requires call.ResendVerification?
  {
    var found := UserByEmail(s.users, call.email);
    if call.email == "" then (s, Failed(Required))
    else if FindByEmail in e.faults then (s, Failed(Internal))
    else if found.None? then (s, Resent(false))
    else if s.users[found.value].verifiedAt.Some? then (s, Resent(true))
    else if Random in e.faults || CreateToken in e.faults then (s, Failed(Internal))
    else (AddToken(s, found.value, EmailVerification, VERIFICATION_TTL, e), Resent(false))
  }

  function SetActiveCall(s: State, call: Call): (State, Reply)
    requires call.SetActive?
  {
    (if call.account in s.users then PutUser(s, call.account, s.users[call.account].(active := call.active)) else s,
     Done)
  }

  /** The call starts: the clock has moved on. */
  function Started(s: State, e: Env): State {
    s.(now := e.later, calls := s.calls + 1)
  }

  ghost function Perform(c: Config, s: State, call: Call, e: Env): (State, Reply) {
    var s := Started(s, e);
    match call
    case Register(_, _, _, _) => RegisterCall(c, s, call, e)
    case Login(_, _) => LoginCall(c, s, call, e)
    case Logout(_) => LogoutCall(s, call, e)
    case RefreshTokens(_) => RefreshCall(c, s, call, e)
    case RequestPasswordReset(_) => RequestResetCall(s, call, e)
    case ResetPassword(_, _) => ResetPasswordCall(s, call, e)
    case ChangePassword(_, _, _) => ChangePasswordCall(s, call, e)
    case VerifyEmail(_) => VerifyEmailCall(s, call, e)
    case ResendVerification(_) => ResendCall(s, call, e)
    case SetActive(_, _) => SetActiveCall(s, call)
  }

  datatype Event = Event(call: Call, env: Env)

  ghost predicate ValidRun(c: Config, s: State, run: seq<Event>)
    decreases |run|
  {
    run == [] || (Fresh(s, run[0].env) && ValidRun(c, Perform(c, s, run[0].call, run[0].env).0, run[1..]))
  }

  ghost function Exec(c: Config, s: State, run: seq<Event>): State
    requires ValidRun(c, s, run)
    decreases |run|
  {
    if run == [] then s else Exec(c, Perform(c, s, run[0].call, run[0].env).0, run[1..])
  }

  /** A run grows by one call. */
  lemma {:induction false} RunSnoc(c: Config, s: State, run: seq<Event>, event: Event)
    requires ValidRun(c, s, run) && Fresh(Exec(c, s, run), event.env)
    ensures ValidRun(c, s, run + [event])
    ensures Exec(c, s, run + [event]) == Perform(c, Exec(c, s, run), event.call, event.env).0
    decreases |run|
  {
    var longer := run + [event];
    if run == [] {
      assert longer == [event] && [event][1..] == [];
      assert ValidRun(c, Perform(c, s, event.call, event.env).0, [event][1..]);
    } else {
      RunSnoc(c, Perform(c, s, run[0].call, run[0].env).0, run[1..], event);
      assert longer[1..] == run[1..] + [event];
    }
  }
}
