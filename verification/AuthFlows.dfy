/**
 End-to-end flows: which password logs a user in after any run, when a refresh works in a reachable state,
 and how long the tokens handed out by one call serve the next.
 */
module AuthFlows {
  import opened Options
  import opened Password
  import opened AuthModel
  import opened AuthInvariant
  import opened AuthFootprint
  import opened AuthGuarantees

  /** The call changes the user's password. */
  predicate ChangesPasswordOf(s: State, call: Call, reply: Reply, u: UserId) {
    (call.ResetPassword? || call.ChangePassword?) && reply == Done && Owner(s, call) == Some(u)
  }

  /** Only a successful reset or change of one's own password touches it, and sets the new one. */
  lemma PasswordChangedBy(c: Config, s: State, call: Call, e: Env, u: UserId)
    requires Inv(c, s) && Fresh(s, e) && u in s.users
    ensures u in Perform(c, s, call, e).0.users
    ensures Perform(c, s, call, e).0.users[u].password ==
              if ChangesPasswordOf(s, call, Perform(c, s, call, e).1, u)
              then Bcrypt(call.newPassword) else s.users[u].password
  {
    CallFootprint(c, s, call, e);
    if call.Register? {
      RegisterWritesUser(c, s, call, e);
    } else if call.ResetPassword? {
      ResetWrites(c, s, call, e, u);
    } else if call.ChangePassword? {
      ChangeWrites(c, s, call, e, u);
    } else {
      OtherWritesPassword(c, s, call, e, u);
    }
  }

  lemma ResetWrites(c: Config, s: State, call: Call, e: Env, u: UserId)
    requires TokensOk(s) && u in s.users && call.ResetPassword?
    ensures Perform(c, s, call, e).0.users.Keys == s.users.Keys
    ensures Perform(c, s, call, e).0.users[u].password ==
              if ChangesPasswordOf(s, call, Perform(c, s, call, e).1, u)
              then Bcrypt(call.newPassword) else s.users[u].password
  {
  }

  lemma ChangeWrites(c: Config, s: State, call: Call, e: Env, u: UserId)
    requires TokensOk(s) && u in s.users && call.ChangePassword?
    ensures Perform(c, s, call, e).0.users.Keys == s.users.Keys
    ensures Perform(c, s, call, e).0.users[u].password ==
              if ChangesPasswordOf(s, call, Perform(c, s, call, e).1, u)
              then Bcrypt(call.newPassword) else s.users[u].password
  {
  }

  lemma OtherWritesPassword(c: Config, s: State, call: Call, e: Env, u: UserId)
    requires u in s.users && !call.Register? && !call.ResetPassword? && !call.ChangePassword?
    ensures Perform(c, s, call, e).0.users.Keys == s.users.Keys
    ensures Perform(c, s, call, e).0.users[u].password == s.users[u].password
  {
    if call.Login? {
      ByEmailIsUser(s.users, call.email);
    }
  }

  /** No event of the run is a successful change of the user's password. */
  ghost predicate KeepsPasswordOf(c: Config, s: State, run: seq<Event>, u: UserId)
    requires ValidRun(c, s, run)
    decreases |run|
  {
    run == [] ||
      var (s', reply) := Perform(c, s, run[0].call, run[0].env);
      !ChangesPasswordOf(s, run[0].call, reply, u) && KeepsPasswordOf(c, s', run[1..], u)
  }

  lemma {:induction false} PasswordStays(c: Config, s: State, run: seq<Event>, u: UserId)
    requires Inv(c, s) && ValidRun(c, s, run) && u in s.users && KeepsPasswordOf(c, s, run, u)
    ensures u in Exec(c, s, run).users && Exec(c, s, run).users[u].password == s.users[u].password
    decreases |run|
  {
    if run != [] {
      PasswordChangedBy(c, s, run[0].call, run[0].env, u);
      CallKeepsInv(c, s, run[0].call, run[0].env);
      PasswordStays(c, Perform(c, s, run[0].call, run[0].env).0, run[1..], u);
    }
  }

  /** A login without failures succeeds exactly with the email, the password and an active account. */
  lemma LoginIff(c: Config, s: State, email: string, password: string, e: Env, u: UserId)
    requires Inv(c, s) && u in s.users && s.users[u].email == email && e.faults == {}
    ensures Perform(c, s, Login(email, password), e).1.SignedIn? <==>
              s.users[u].active && s.users[u].password == Bcrypt(password)
    ensures Perform(c, s, Login(email, password), e).1.SignedIn? ==>
              Perform(c, s, Login(email, password), e).1 == SignedIn(u, e.access, e.refresh)
  {
    assert UserOk(s.users, u);
    ByEmailIsUser(s.users, email);
  }

  /** After a change of password, and until the next one, the new password and no other logs the user in. */
  lemma LatestPasswordLogsIn(c: Config, s: State, call: Call, e: Env, run: seq<Event>, u: UserId, password: string,
                             e2: Env)
    requires Inv(c, s) && Fresh(s, e) && u in s.users && ChangesPasswordOf(s, call, Perform(c, s, call, e).1, u)
    requires ValidRun(c, Perform(c, s, call, e).0, run) && KeepsPasswordOf(c, Perform(c, s, call, e).0, run, u)
    requires e2.faults == {}
    ensures var s2 := Exec(c, Perform(c, s, call, e).0, run);
            && u in s2.users
            && (Perform(c, s2, Login(s.users[u].email, password), e2).1.SignedIn? <==>
                  s2.users[u].active && password == call.newPassword)
  {
    var s1 := Perform(c, s, call, e).0;
    CallKeepsInv(c, s, call, e);
    PasswordChangedBy(c, s, call, e, u);
    PasswordStays(c, s1, run, u);
    CallFootprint(c, s, call, e);
    EmailForGood(c, s1, run, u);
    RunKeepsInv(c, s1, run);
    LoginIff(c, Exec(c, s1, run), s.users[u].email, password, e2, u);
  }

  /**
   In a reachable state a refresh succeeds exactly if the token validates, has a session row, and its
   user is active, unless a call fails; the row's own expiry and the user's existence never decide.
   */
  lemma RefreshSucceedsIff(c: Config, run: seq<Event>, token: Secret, e: Env)
    requires ValidRun(c, INIT, run) && Fresh(Exec(c, INIT, run), e) && c.sessionTtl >= c.refreshTtl
    ensures var s := Exec(c, INIT, run);
            Perform(c, s, RefreshTokens(token), e).1.Refreshed? <==>
              && Validates(s, token, e.now) && Sha256(token) in s.sessions
              && s.issued[token].claims.userId in s.users && s.users[s.issued[token].claims.userId].active
              && e.faults !! {FindSession, FindById, SignTokens, CreateSession}
  {
    InitInv(c);
    RunKeepsInv(c, INIT, run);
    if Validates(Exec(c, INIT, run), token, e.now) && Sha256(token) in Exec(c, INIT, run).sessions {
      LiveTokenFindsSession(c, run, token, e.now);
    }
  }

  /** The two tokens of a pair, with their lifetimes and the session of the second. */
  ghost predicate PairGranted(c: Config, s: State, e: Env) {
    && e.access in s.issued && e.refresh in s.issued && Sha256(e.refresh) in s.sessions
    && s.issued[e.access].use == Access && s.issued[e.refresh].use == Refresh
    && s.sessions[Sha256(e.refresh)].expiresAt == e.later + c.sessionTtl
    && s.issued[e.access].claims.issuedAt == FloorSecond(e.now) == s.issued[e.refresh].claims.issuedAt
    && s.issued[e.access].claims.notBefore == FloorSecond(e.now) == s.issued[e.refresh].claims.notBefore
    && s.issued[e.access].claims.expiresAt == FloorSecond(e.now + c.accessTtl)
    && s.issued[e.refresh].claims.expiresAt == FloorSecond(e.now + c.refreshTtl)
  }

  lemma RegisterGrants(c: Config, s: State, e: Env)
    requires e.userId in s.users && e.access != e.refresh
    ensures SignUp(c, s, e).1.Registered? ==> PairGranted(c, SignUp(c, s, e).0, e)
  {
  }

  lemma LoginGrants(c: Config, s: State, id: UserId, e: Env)
    requires id in s.users && e.access != e.refresh
    ensures SignIn(c, s, id, e).1.SignedIn? ==> PairGranted(c, SignIn(c, s, id, e).0, e)
  {
  }

  lemma RefreshGrants(c: Config, s: State, token: Secret, id: UserId, e: Env)
    requires id in s.users && e.access != e.refresh
    ensures Rotate(c, s, token, id, e).1.Refreshed? ==> PairGranted(c, Rotate(c, s, token, id, e).0, e)
  {
  }

  lemma CallGrants(c: Config, s: State, call: Call, e: Env)
    requires Fresh(s, e)
    requires var reply := Perform(c, s, call, e).1; reply.Registered? || reply.SignedIn? || reply.Refreshed?
    ensures PairGranted(c, Perform(c, s, call, e).0, e)
  {
    var started := Started(s, e);
    match call
    case Register(email, username, password, displayName) =>
      RegisterGrants(c, AddUser(started, e.userId, NewUser(email, username, password, displayName)), e);
    case Login(email, _) =>
      ByEmailIsUser(started.users, email);
      LoginGrants(c, started, UserByEmail(started.users, email).value, e);
    case RefreshTokens(token) => RefreshGrants(c, started, token, s.issued[token].claims.userId, e);
    case _ =>
  }

  /**
   The pair a registration, login or refresh hands out validates from the second of issue until each token's
   own lifetime is over, in every later state: nothing the service does can end it sooner.
   */
  lemma PairLifetime(c: Config, s: State, call: Call, e: Env, run: seq<Event>, t: Time)
    requires Inv(c, s) && Fresh(s, e) && ValidRun(c, Perform(c, s, call, e).0, run)
    requires var reply := Perform(c, s, call, e).1; reply.Registered? || reply.SignedIn? || reply.Refreshed?
    ensures PairGranted(c, Perform(c, s, call, e).0, e)
    ensures var s2 := Exec(c, Perform(c, s, call, e).0, run);
            && (Validates(s2, e.access, t) <==> FloorSecond(e.now) <= t < FloorSecond(e.now + c.accessTtl))
            && (Validates(s2, e.refresh, t) <==> FloorSecond(e.now) <= t < FloorSecond(e.now + c.refreshTtl))
  {
    var s1 := Perform(c, s, call, e).0;
    CallGrants(c, s, call, e);
    CallKeepsInv(c, s, call, e);
    SignedForItsTime(c, s1, run, e.access, t);
    SignedForItsTime(c, s1, run, e.refresh, t);
  }

  /** A registered user can verify the email for 24 hours, and log in. */
  lemma RegisterFlow(c: Config, s: State, call: Call, e: Env, e2: Env)
    requires Inv(c, s) && Fresh(s, e) && call.Register? && Perform(c, s, call, e).1.Registered? && e.oneTime != ""
    requires e2.faults == {}
    ensures var s1 := Perform(c, s, call, e).0;
            && (Perform(c, s1, VerifyEmail(e.oneTime), e2).1 == Verified(e.userId) <==>
                  e2.now < e.later + 86_400_000_000)
            && Perform(c, s1, Login(call.email, call.password), e2).1 == SignedIn(e.userId, e2.access, e2.refresh)
  {
    var s1 := Perform(c, s, call, e).0;
    CallKeepsInv(c, s, call, e);
    RegisteredState(c, s, call, e);
    LoginIff(c, s1, call.email, call.password, e2, e.userId);
  }

  lemma RegisteredState(c: Config, s: State, call: Call, e: Env)
    requires Fresh(s, e) && call.Register? && Perform(c, s, call, e).1.Registered?
    ensures var s1 := Perform(c, s, call, e).0;
            && e.userId in s1.users
            && s1.users == s.users[e.userId := User(call.email, call.username, Bcrypt(call.password), call.displayName,
                                                    "member", true, None, None)]
            && Sha256(e.oneTime) in s1.tokens
            && s1.tokens[Sha256(e.oneTime)] == OneTimeToken(e.userId, EmailVerification, e.later + 86_400_000_000)
  {
  }

  /** A requested reset token resets the user's password for one hour, with any strong password that bcrypt takes. */
  lemma ResetFlow(c: Config, s: State, u: UserId, e: Env, newPassword: string, e2: Env)
    requires Inv(c, s) && Fresh(s, e) && u in s.users && s.users[u].email != ""
    requires e.faults == {} && e2.faults == {}
    ensures var s1 := Perform(c, s, RequestPasswordReset(s.users[u].email), e).0;
            var (s2, reply) := Perform(c, s1, ResetPassword(e.oneTime, newPassword), e2);
            && (reply == Done <==> Strong(newPassword) && |newPassword| <= 72 && e2.now < e.later + 3_600_000_000)
            && (reply == Done ==> ChangesPasswordOf(s1, ResetPassword(e.oneTime, newPassword), reply, u)
                                  && SessionsOf(s2, u) == {})
  {
    assert UserOk(s.users, u);
    ByEmailIsUser(s.users, s.users[u].email);
    var s1 := Perform(c, s, RequestPasswordReset(s.users[u].email), e).0;
    assert s1.tokens[Sha256(e.oneTime)] == OneTimeToken(u, PasswordReset, e.later + HOUR);
  }
}
