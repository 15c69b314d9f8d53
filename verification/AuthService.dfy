/**
 AuthService and PostgresAuthRepository as they are written: ordered reads and writes with early
 returns, each method proved to do to the tables exactly what the call's transition says.
 */
module AuthServices {
  import opened Options
  import opened Password
  import opened AuthModel
  import opened AuthInvariant
  import opened AuthFootprint
  import opened AuthGuarantees

  datatype Lookup<+T> = Found(value: T) | Missing | Broken

  /** The three tables. `fails` says that the statement returns an error and has no effect. */
  class AuthRepository {
    var users: map<UserId, User>
    var sessions: map<Digest, Session>
    var tokens: map<Digest, OneTimeToken>

    constructor ()
      ensures users == map[] && sessions == map[] && tokens == map[]
    {
      users, sessions, tokens := map[], map[], map[];
    }

    /** Email and username are UNIQUE. */
    method InsertUser(id: UserId, u: User, fails: bool) returns (ok: bool)
      requires id !in users
      modifies this`users
      ensures ok <==> !fails && UserByEmail(old(users), u.email).None? && !UsernameTaken(old(users), u.username)
      ensures users == if ok then old(users)[id := u] else old(users)
    {
      var emailTaken := exists k :: k in users && users[k].email == u.email;
      ok := !fails && !emailTaken && !UsernameTaken(users, u.username);
      if ok {
        users := users[id := u];
      }
    }

    method GetUserByEmail(email: string, fails: bool) returns (r: Lookup<UserId>)
      ensures fails <==> r == Broken
      ensures r.Found? ==> r.value in users && users[r.value].email == email
      ensures r.Missing? ==> UserByEmail(users, email).None?
    {
      if fails {
        return Broken;
      }
      if id :| id in users && users[id].email == email {
        return Found(id);
      }
      r := Missing;
    }

    method GetUserByID(id: UserId, fails: bool) returns (r: Lookup<User>)
      ensures r == if fails then Broken else if id in users then Found(users[id]) else Missing
    {
      if fails {
        return Broken;
      }
      r := if id in users then Found(users[id]) else Missing;
    }

    // The three updates change no row, and report no error, when the id is not there.

    method UpdateLastLogin(id: UserId, now: Time, fails: bool) returns (ok: bool)
      modifies this`users
      ensures ok == !fails
      ensures users == if ok && id in old(users)
                       then old(users)[id := old(users)[id].(lastLoginAt := Some(now))] else old(users)
    {
      ok := !fails;
      if ok && id in users {
        users := users[id := users[id].(lastLoginAt := Some(now))];
      }
    }

    method UpdatePassword(id: UserId, hash: PasswordHash, fails: bool) returns (ok: bool)
      modifies this`users
      ensures ok == !fails
      ensures users == if ok && id in old(users)
                       then old(users)[id := old(users)[id].(password := hash)] else old(users)
    {
      ok := !fails;
      if ok && id in users {
        users := users[id := users[id].(password := hash)];
      }
    }

    method VerifyEmail(id: UserId, now: Time, fails: bool) returns (ok: bool)
      modifies this`users
      ensures ok == !fails
      ensures users == if ok && id in old(users)
                       then old(users)[id := old(users)[id].(verifiedAt := Some(now))] else old(users)
    {
      ok := !fails;
      if ok && id in users {
        users := users[id := users[id].(verifiedAt := Some(now))];
      }
    }

    /** The hash is UNIQUE and the user a foreign key. */
    method CreateUserSession(h: Digest, session: Session, fails: bool) returns (ok: bool)
      modifies this`sessions
      ensures ok <==> !fails && h !in old(sessions) && session.userId in users
      ensures sessions == if ok then old(sessions)[h := session] else old(sessions)
    {
      ok := !fails && h !in sessions && session.userId in users;
      if ok {
        sessions := sessions[h := session];
      }
    }

    method GetUserSessionByToken(h: Digest, now: Time, fails: bool) returns (r: Lookup<Session>)
      ensures r.Broken? <==> fails
      ensures r.Found? ==> h in sessions && r.value == sessions[h] && now < r.value.expiresAt
      ensures r.Missing? && h in sessions ==> sessions[h].expiresAt <= now
    {
      if fails {
        return Broken;
      }
      r := if h in sessions && sessions[h].expiresAt > now then Found(sessions[h]) else Missing;
    }

    method DeleteUserSession(h: Digest, fails: bool) returns (ok: bool)
      modifies this`sessions
      ensures ok == !fails
      ensures sessions == if ok then old(sessions) - {h} else old(sessions)
    {
      ok := !fails;
      if ok {
        sessions := sessions - {h};
      }
    }

    method DeleteAllUserSessions(id: UserId, fails: bool) returns (ok: bool)
      modifies this`sessions
      ensures ok == !fails
      ensures sessions == if ok then map h | h in old(sessions) && old(sessions)[h].userId != id :: old(sessions)[h]
                          else old(sessions)
    {
      ok := !fails;
      if ok {
        sessions := map h | h in sessions && sessions[h].userId != id :: sessions[h];
      }
    }

    /** The hash is the primary key and the user a foreign key. */
    method CreateUserToken(h: Digest, token: OneTimeToken, fails: bool) returns (ok: bool)
      modifies this`tokens
      ensures ok <==> !fails && h !in old(tokens) && token.userId in users
      ensures tokens == if ok then old(tokens)[h := token] else old(tokens)
    {
      ok := !fails && h !in tokens && token.userId in users;
      if ok {
        tokens := tokens[h := token];
      }
    }

    method GetUserTokenByHash(h: Digest, purpose: Purpose, now: Time, fails: bool) returns (r: Lookup<OneTimeToken>)
      ensures r.Broken? <==> fails
      ensures r.Found? ==> h in tokens && r.value == tokens[h] && r.value.purpose == purpose && now < r.value.expiresAt
      ensures r.Missing? && h in tokens ==> tokens[h].purpose != purpose || tokens[h].expiresAt <= now
    {
      if fails {
        return Broken;
      }
      var found := h in tokens && tokens[h].purpose == purpose && tokens[h].expiresAt > now;
      r := if found then Found(tokens[h]) else Missing;
    }

    method DeleteUserToken(h: Digest, fails: bool) returns (ok: bool)
      modifies this`tokens
      ensures ok == !fails
      ensures tokens == if ok then old(tokens) - {h} else old(tokens)
    {
      ok := !fails;
      if ok {
        tokens := tokens - {h};
      }
    }
  }

  /** The service; `issued` stands for what the signing secret makes verifiable. */
  class AuthService {
    const repo: AuthRepository
    const config: Config
    var issued: map<Secret, Jwt>
    ghost var minted: set<Secret>
    ghost var now: Time
    var calls: nat
    ghost var history: seq<Event>

    constructor (accessTtl: Time, refreshTtl: Time, sessionTtl: Time)
      ensures config == NewConfig(accessTtl, refreshTtl, sessionTtl) && fresh(repo)
      ensures Valid() && View() == INIT && history == []
    {
      config := NewConfig(accessTtl, refreshTtl, sessionTtl);
      repo := new AuthRepository();
      issued, minted, now, calls, history := map[], {}, 0, 0, [];
    }

    ghost function View(): State
      reads this, repo
    {
      State(repo.users, repo.sessions, repo.tokens, issued, minted, now, calls)
    }

    /** The state is what the history of all calls leads to. */
    ghost predicate Valid()
      reads this, repo
    {
      ValidRun(config, INIT, history) && Exec(config, INIT, history) == View()
    }

    lemma ValidKeepsInv()
      requires Valid()
      ensures Inv(config, View())
    {
      InitInv(config);
      RunKeepsInv(config, INIT, history);
    }

    /** The call is recorded and counted; the count stamps the tokens it signs. */
    method Start(call: Call, e: Env)
      requires Valid() && Fresh(View(), e)
      modifies this`now, this`calls, this`history
      ensures View() == Started(old(View()), e) && history == old(history) + [Event(call, e)]
      ensures ValidRun(config, INIT, history)
      ensures Exec(config, INIT, history) == Perform(config, old(View()), call, e).0
      ensures Inv(config, old(View()))
    {
      ValidKeepsInv();
      RunSnoc(config, INIT, history, Event(call, e));
      history := history + [Event(call, e)];
      now, calls := e.later, calls + 1;
    }

    /** The user is the record that was read or has just been inserted. */
    method GenerateTokenPair(id: UserId, u: User, via: Via, e: Env) returns (ok: bool)
      requires id in repo.users && repo.users[id] == u
      modifies this`issued, this`minted
      ensures ok <==> SignTokens !in e.faults
      ensures View() == if ok then Mint(config, old(View()), id, via, e) else old(View())
    {
      ok := SignTokens !in e.faults;
      if ok {
        var access := Jwt(ClaimsFor(id, u, e.now, config.accessTtl), Access, calls, via);
        var refresh := Jwt(ClaimsFor(id, u, e.now, config.refreshTtl), Refresh, calls, via);
        issued := issued[e.access := access][e.refresh := refresh];
        minted := minted + {e.access, e.refresh};
      }
    }

    method CreateSession(id: UserId, refreshToken: Secret, e: Env) returns (ok: bool)
      requires refreshToken == e.refresh && Sha256(e.refresh) !in repo.sessions && id in repo.users
      modifies repo`sessions
      ensures ok <==> Op.CreateSession !in e.faults
      ensures View() == if ok then OpenSession(config, old(View()), id, e) else old(View())
    {
      var session := Session(id, e.later + config.sessionTtl);
      ok := repo.CreateUserSession(Sha256(refreshToken), session, Op.CreateSession in e.faults);
    }

    /** A random token is drawn and stored; the mail that carries it is not part of the model. */
    method CreateOneTimeToken(id: UserId, purpose: Purpose, ttl: Time, e: Env) returns (ok: bool)
      requires Sha256(e.oneTime) !in repo.tokens && id in repo.users
      modifies repo`tokens, this`minted
      ensures ok <==> Random !in e.faults && CreateToken !in e.faults
      ensures View() == if ok then AddToken(old(View()), id, purpose, ttl, e) else old(View())
    {
      if Random in e.faults {
        return false;
      }
      ok := repo.CreateUserToken(Sha256(e.oneTime), OneTimeToken(id, purpose, e.later + ttl), CreateToken in e.faults);
      if ok {
        minted := minted + {e.oneTime};
      }
    }

    /** The unique and primary key constraints cannot strike: the drawn secrets are new. */
    lemma DrawnAreNew(s: State, e: Env)
      requires Inv(config, s) && Fresh(s, e)
      ensures Sha256(e.refresh) !in s.sessions && Sha256(e.oneTime) !in s.tokens
    {
      FreshIsUnissued(config, s, e);
      SessionsAreRefreshes(config, s);
    }

    method RegisterUser(email: string, username: string, password: string, displayName: string, e: Env)
      returns (reply: Reply)
      requires Valid() && Fresh(View(), e)
      modifies this, repo
      ensures Valid() && history == old(history) + [Event(Call.Register(email, username, password, displayName), e)]
      ensures (View(), reply) == Perform(config, old(View()), Call.Register(email, username, password, displayName), e)
    {
      Start(Call.Register(email, username, password, displayName), e);
      DrawnAreNew(old(View()), e);
      var verdict := ValidatePassword(password);
      if verdict != Accepted {
        return Failed(Weak(verdict));
      }
      var existing := repo.GetUserByEmail(email, FindByEmail in e.faults);
      if existing.Found? {
        return Failed(UserAlreadyExists);
      } else if existing.Broken? {
        return Failed(Internal);
      }
      if HashFails(password, e) {
        return Failed(Internal);
      }
      var user := NewUser(email, username, password, displayName);
      var ok := repo.InsertUser(e.userId, user, CreateUser in e.faults);
      if !ok {
        return Failed(Internal);
      }
      ok := GenerateTokenPair(e.userId, user, ByRegister, e);
      if !ok {
        return Failed(Internal);
      }
      ok := CreateSession(e.userId, e.refresh, e);
      if !ok {
        return Failed(Internal);
      }
      ok := CreateOneTimeToken(e.userId, EmailVerification, VERIFICATION_TTL, e);
      if !ok {
        return Failed(Internal);
      }
      reply := Registered(e.userId, e.access, e.refresh);
    }

    method Login(email: string, password: string, e: Env) returns (reply: Reply)
      requires Valid() && Fresh(View(), e)
      modifies this, repo
      ensures Valid() && history == old(history) + [Event(Call.Login(email, password), e)]
      ensures (View(), reply) == Perform(config, old(View()), Call.Login(email, password), e)
    {
      Start(Call.Login(email, password), e);
      DrawnAreNew(old(View()), e);
      var found := repo.GetUserByEmail(email, FindByEmail in e.faults);
      if found.Broken? {
        return Failed(Internal);
      } else if found.Missing? {
        return Failed(UserNotFound);
      }
      var id := found.value;
      EmailDecides(View(), email, id);
      var user := repo.users[id];
      if !user.active {
        return Failed(AccountInactive);
      }
      if user.password.of != password {
        return Failed(InvalidCredentials);
      }
      var ok := GenerateTokenPair(id, user, ByLogin, e);
      if !ok {
        return Failed(Internal);
      }
      ok := CreateSession(id, e.refresh, e);
      if !ok {
        return Failed(Internal);
      }
      ok := repo.UpdateLastLogin(id, e.later, TouchLogin in e.faults);
      reply := SignedIn(id, e.access, e.refresh);
    }

    /** Emails are unique, so the row found is the row meant. */
    lemma EmailDecides(s: State, email: string, id: UserId)
      requires UsersOk(s) && id in s.users && s.users[id].email == email
      ensures UserByEmail(s.users, email) == Some(id)
    {
      assert UserOk(s.users, id);
    }

    method Logout(token: Secret, e: Env) returns (reply: Reply)
      requires Valid() && Fresh(View(), e)
      modifies this, repo
      ensures Valid() && history == old(history) + [Event(Call.Logout(token), e)]
      ensures (View(), reply) == Perform(config, old(View()), Call.Logout(token), e)
    {
      Start(Call.Logout(token), e);
      if token == "" {
        return Failed(Required);
      }
      var ok := repo.DeleteUserSession(Sha256(token), DeleteSession in e.faults);
      if !ok {
        return Failed(Internal);
      }
      reply := Done;
    }

    method ValidateToken(token: Secret, t: Time) returns (claims: Option<Claims>)
      ensures claims == if Validates(View(), token, t) then Some(issued[token].claims) else None
    {
      if token !in issued {
        return None;
      }
      claims := if LiveAt(issued[token].claims, t) then Some(issued[token].claims) else None;
    }

    method RefreshTokens(token: Secret, e: Env) returns (reply: Reply)
      requires Valid() && Fresh(View(), e)
      modifies this, repo
      ensures Valid() && history == old(history) + [Event(Call.RefreshTokens(token), e)]
      ensures (View(), reply) == Perform(config, old(View()), Call.RefreshTokens(token), e)
    {
      Start(Call.RefreshTokens(token), e);
      DrawnAreNew(old(View()), e);
      var claims := ValidateToken(token, e.now);
      if claims.None? {
        return Failed(TokenRejected);
      }
      var session := repo.GetUserSessionByToken(Sha256(token), e.now, FindSession in e.faults);
      if session.Broken? {
        return Failed(Internal);
      } else if session.Missing? {
        return Failed(SessionNotFound);
      }
      var id := claims.value.userId;
      var user := repo.GetUserByID(id, FindById in e.faults);
      if user.Broken? {
        return Failed(Internal);
      } else if user.Missing? {
        return Failed(UserNotFound);
      }
      if !user.value.active {
        return Failed(AccountInactive);
      }
      var ok := repo.DeleteUserSession(Sha256(token), DeleteSession in e.faults);
      ok := GenerateTokenPair(id, user.value, ByRefresh(token), e);
      if !ok {
        return Failed(Internal);
      }
      ok := CreateSession(id, e.refresh, e);
      if !ok {
        return Failed(Internal);
      }
      reply := Refreshed(e.access, e.refresh);
    }

    method RequestPasswordReset(email: string, e: Env) returns (reply: Reply)
      requires Valid() && Fresh(View(), e)
      modifies this, repo
      ensures Valid() && history == old(history) + [Event(Call.RequestPasswordReset(email), e)]
      ensures (View(), reply) == Perform(config, old(View()), Call.RequestPasswordReset(email), e)
    {
      Start(Call.RequestPasswordReset(email), e);
      DrawnAreNew(old(View()), e);
      if email == "" {
        return Failed(Required);
      }
      var found := repo.GetUserByEmail(email, FindByEmail in e.faults);
      if found.Missing? {
        return Done;
      } else if found.Broken? {
        return Failed(Internal);
      }
      EmailDecides(View(), email, found.value);
      var ok := CreateOneTimeToken(found.value, PasswordReset, RESET_TTL, e);
      if !ok {
        return Failed(Internal);
      }
      reply := Done;
    }

    method ResetPassword(token: Secret, newPassword: string, e: Env) returns (reply: Reply)
      requires Valid() && Fresh(View(), e)
      modifies this, repo
      ensures Valid() && history == old(history) + [Event(Call.ResetPassword(token, newPassword), e)]
      ensures (View(), reply) == Perform(config, old(View()), Call.ResetPassword(token, newPassword), e)
    {
      Start(Call.ResetPassword(token, newPassword), e);
      var verdict := ValidatePassword(newPassword);
      if verdict != Accepted {
        return Failed(Weak(verdict));
      }
      var h := Sha256(token);
      var found := repo.GetUserTokenByHash(h, PasswordReset, e.now, FindToken in e.faults);
      if found.Broken? {
        return Failed(Internal);
      } else if found.Missing? {
        return Failed(InvalidToken);
      }
      if HashFails(newPassword, e) {
        return Failed(Internal);
      }
      var id := found.value.userId;
      var ok := repo.UpdatePassword(id, Bcrypt(newPassword), Op.UpdatePassword in e.faults);
      if !ok {
        return Failed(Internal);
      }
      ok := repo.DeleteUserToken(h, DeleteToken in e.faults);
      ok := repo.DeleteAllUserSessions(id, DeleteSessions in e.faults);
      reply := Done;
    }

    method ChangePassword(user: UserRef, current: string, newPassword: string, e: Env) returns (reply: Reply)
      requires Valid() && Fresh(View(), e)
      modifies this, repo
      ensures Valid() && history == old(history) + [Event(Call.ChangePassword(user, current, newPassword), e)]
      ensures (View(), reply) == Perform(config, old(View()), Call.ChangePassword(user, current, newPassword), e)
    {
      Start(Call.ChangePassword(user, current, newPassword), e);
      if user == NoId {
        return Failed(Required);
      }
      if user == BadId {
        return Failed(Malformed);
      }
      var id := user.id;
      var found := repo.GetUserByID(id, FindById in e.faults);
      if found.Broken? {
        return Failed(Internal);
      } else if found.Missing? {
        return Failed(UserNotFound);
      }
      if found.value.password.of != current {
        return Failed(InvalidCredentials);
      }
      var verdict := ValidatePassword(newPassword);
      if verdict != Accepted {
        return Failed(Weak(verdict));
      }
      if HashFails(newPassword, e) {
        return Failed(Internal);
      }
      var ok := repo.UpdatePassword(id, Bcrypt(newPassword), Op.UpdatePassword in e.faults);
      if !ok {
        return Failed(Internal);
      }
      ok := repo.DeleteAllUserSessions(id, DeleteSessions in e.faults);
      reply := Done;
    }

    method VerifyEmail(token: Secret, e: Env) returns (reply: Reply)
      requires Valid() && Fresh(View(), e)
      modifies this, repo
      ensures Valid() && history == old(history) + [Event(Call.VerifyEmail(token), e)]
      ensures (View(), reply) == Perform(config, old(View()), Call.VerifyEmail(token), e)
    {
      Start(Call.VerifyEmail(token), e);
      if token == "" {
        return Failed(Required);
      }
      var h := Sha256(token);
      var found := repo.GetUserTokenByHash(h, EmailVerification, e.now, FindToken in e.faults);
      if found.Broken? {
        return Failed(Internal);
      } else if found.Missing? {
        return Failed(InvalidToken);
      }
      var id := found.value.userId;
      var ok := repo.VerifyEmail(id, e.later, MarkVerified in e.faults);
      if !ok {
        return Failed(Internal);
      }
      ok := repo.DeleteUserToken(h, DeleteToken in e.faults);
      reply := Verified(id);
    }

    method ResendVerificationEmail(email: string, e: Env) returns (reply: Reply)
      requires Valid() && Fresh(View(), e)
      modifies this, repo
      ensures Valid() && history == old(history) + [Event(Call.ResendVerification(email), e)]
      ensures (View(), reply) == Perform(config, old(View()), Call.ResendVerification(email), e)
    {
      Start(Call.ResendVerification(email), e);
      DrawnAreNew(old(View()), e);
      if email == "" {
        return Failed(Required);
      }
      var found := repo.GetUserByEmail(email, FindByEmail in e.faults);
      if found.Missing? {
        return Resent(false);
      } else if found.Broken? {
        return Failed(Internal);
      }
      EmailDecides(View(), email, found.value);
      if repo.users[found.value].verifiedAt.Some? {
        return Resent(true);
      }
      var ok := CreateOneTimeToken(found.value, EmailVerification, VERIFICATION_TTL, e);
      if !ok {
        return Failed(Internal);
      }
      reply := Resent(false);
    }
  }
}
