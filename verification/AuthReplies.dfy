/**
 What each service call needs to succeed, what it answers otherwise, and exactly what it then writes;
 and what follows over runs: the latest password is the one the next change needs, a token that was
 logged out is dead, and a deactivated account stays out.
 */
module AuthReplies {
  import opened Options
  import opened Password
  import opened AuthModel
  import opened AuthInvariant
  import opened AuthFootprint
  import opened AuthGuarantees
  import opened AuthFlows

  predicate HasEmail(s: State, email: string) {
    exists u :: u in s.users && s.users[u].email == email
  }

  predicate HasUsername(s: State, username: string) {
    exists u :: u in s.users && s.users[u].username == username
  }

  /** A call that fails for a reason of its own, or for no fault at all, changes nothing but the clock. */
  lemma RefusalChangesNothing(c: Config, s: State, call: Call, e: Env)
    requires Perform(c, s, call, e).1.Failed?
    requires Perform(c, s, call, e).1.error != Internal || e.faults == {}
    ensures Perform(c, s, call, e).0 == Started(s, e)
  {
  }

  // ----- registration -----

  lemma EmailFound(s: State, email: string)
    ensures UserByEmail(s.users, email).Some? <==> HasEmail(s, email)
  {
  }

  /** A registration succeeds exactly with a strong, short enough password, a new email and a new username. */
  lemma RegisterIff(c: Config, s: State, email: string, username: string, password: string, displayName: string, e: Env)
    ensures var reply := Perform(c, s, Register(email, username, password, displayName), e).1;
            && (reply == Registered(e.userId, e.access, e.refresh) <==>
                  && Strong(password) && |password| <= 72 && !HasEmail(s, email) && !HasUsername(s, username)
                  && e.faults !! {FindByEmail, HashPassword, CreateUser, SignTokens, CreateSession, Random,
                        CreateToken})
            && (reply.Registered? ==> reply == Registered(e.userId, e.access, e.refresh))
            && (reply == Failed(UserAlreadyExists) <==>
                  Strong(password) && FindByEmail !in e.faults && HasEmail(s, email))
            && (!Strong(password) ==> reply == Failed(Weak(Judge(password))))
  {
    EmailFound(Started(s, e), email);
  }

  // ----- login -----

  /** With the email of a user: the account is looked at before the password, and both must be right. */
  lemma LoginReplies(c: Config, s: State, u: UserId, password: string, e: Env)
    requires Inv(c, s) && u in s.users && FindByEmail !in e.faults
    ensures var reply := Perform(c, s, Login(s.users[u].email, password), e).1;
            && (reply == Failed(AccountInactive) <==> !s.users[u].active)
            && (reply == Failed(InvalidCredentials) <==> s.users[u].active && s.users[u].password != Bcrypt(password))
            && (reply == SignedIn(u, e.access, e.refresh) <==>
                  && s.users[u].active && s.users[u].password == Bcrypt(password)
                  && e.faults !! {SignTokens, CreateSession})
  {
    assert UserOk(s.users, u);
    ByEmailIsUser(s.users, s.users[u].email);
  }

  /** Without a user of the email. */
  lemma LoginUnknown(c: Config, s: State, email: string, password: string, e: Env)
    requires FindByEmail !in e.faults && !HasEmail(s, email)
    ensures Perform(c, s, Login(email, password), e).1 == Failed(UserNotFound)
  {
    EmailFound(Started(s, e), email);
  }

  /** A login writes one field of one user, and adds one session. */
  lemma LoginWrites(c: Config, s: State, u: UserId, password: string, e: Env)
    requires Inv(c, s) && u in s.users && Perform(c, s, Login(s.users[u].email, password), e).1.SignedIn?
    ensures var s' := Perform(c, s, Login(s.users[u].email, password), e).0;
            && s'.users == (if TouchLogin in e.faults then s.users
                            else s.users[u := s.users[u].(lastLoginAt := Some(e.later))])
            && s'.sessions == s.sessions[Sha256(e.refresh) := Session(u, e.later + c.sessionTtl)]
            && s'.tokens == s.tokens
  {
    assert UserOk(s.users, u);
    ByEmailIsUser(s.users, s.users[u].email);
  }

  // ----- logout -----

  /** A logout works for every token, known or not, unless the delete fails; exactly the token's session goes. */
  lemma LogoutIff(c: Config, s: State, token: Secret, e: Env)
    ensures var (s', reply) := Perform(c, s, Logout(token), e);
            && (reply == Done <==> token != "" && DeleteSession !in e.faults)
            && (forall h :: h in s'.sessions <==> h in s.sessions && !(reply == Done && h == Sha256(token)))
            && (forall h :: h in s'.sessions ==> s'.sessions[h] == s.sessions[h])
            && s'.users == s.users && s'.tokens == s.tokens && s'.issued == s.issued
  {
  }

  /** A token that was logged out never refreshes again, whatever happens later. */
  lemma LogoutIsFinal(c: Config, s: State, token: Secret, e: Env, run: seq<Event>, e2: Env)
    requires Inv(c, s) && Fresh(s, e) && token in s.issued && token != "" && DeleteSession !in e.faults
    requires ValidRun(c, Perform(c, s, Logout(token), e).0, run)
    ensures !Perform(c, Exec(c, Perform(c, s, Logout(token), e).0, run), RefreshTokens(token), e2).1.Refreshed?
  {
    var s1 := Perform(c, s, Logout(token), e).0;
    LogoutIff(c, s, token, e);
    CallKeepsInv(c, s, Logout(token), e);
    assert JwtOk(c, s, token);
    RevokedForGood(c, s1, run, token);
    RefreshNeedsSession(c, Exec(c, s1, run), token, e2);
  }

  // ----- refresh -----

  /** The checks of a refresh in their order, given that the reads work. */
  lemma RefreshReplies(c: Config, s: State, token: Secret, e: Env)
    requires Inv(c, s) && e.faults !! {FindSession, FindById}
    ensures var reply := Perform(c, s, RefreshTokens(token), e).1;
            && (reply == Failed(TokenRejected) <==> !Validates(s, token, e.now))
            && (reply == Failed(SessionNotFound) <==>
                  Validates(s, token, e.now) && !SessionLive(s, Sha256(token), e.now))
            && (reply == Failed(AccountInactive) <==>
                  && Validates(s, token, e.now) && SessionLive(s, Sha256(token), e.now)
                  && s.sessions[Sha256(token)].userId in s.users
                  && !s.users[s.sessions[Sha256(token)].userId].active)
  {
    if SessionLive(s, Sha256(token), e.now) {
      assert SessionOk(c, s, Sha256(token));
    }
  }

  /** A refresh writes no user and no one-time token; the new session belongs to the owner of the old one. */
  lemma RefreshWrites(c: Config, s: State, token: Secret, e: Env)
    requires Inv(c, s) && Fresh(s, e)
    ensures var (s', reply) := Perform(c, s, RefreshTokens(token), e);
            && s'.users == s.users && s'.tokens == s.tokens
            && (reply.Refreshed? ==>
                  && reply == Refreshed(e.access, e.refresh) && Sha256(token) in s.sessions
                  && Sha256(e.refresh) in s'.sessions
                  && s'.sessions[Sha256(e.refresh)]
                     == Session(s.sessions[Sha256(token)].userId, e.later + c.sessionTtl))
  {
    if token in s.issued {
      RefreshRotates(c, s, token, e);
    }
  }

  /** The refresh token of a pair works once handed out exactly while both the token and its session live. */
  lemma RefreshWindow(c: Config, s: State, call: Call, e: Env, e2: Env)
    requires Inv(c, s) && Fresh(s, e) && Fresh(Perform(c, s, call, e).0, e2) && e2.faults == {}
    requires var reply := Perform(c, s, call, e).1; reply.Registered? || reply.SignedIn? || reply.Refreshed?
    ensures var s1 := Perform(c, s, call, e).0;
            && e.refresh in s1.issued && s1.issued[e.refresh].claims.userId in s1.users
            && (Perform(c, s1, RefreshTokens(e.refresh), e2).1 == Refreshed(e2.access, e2.refresh) <==>
                  && s1.users[s1.issued[e.refresh].claims.userId].active
                  && e2.now < FloorSecond(e.now + c.refreshTtl) && e2.now < e.later + c.sessionTtl)
  {
    var s1 := Perform(c, s, call, e).0;
    CallGrants(c, s, call, e);
    CallKeepsInv(c, s, call, e);
    CallAdvances(c, s, call, e);
    assert JwtOk(c, s1, e.refresh);
  }

  // ----- passwords -----

  /** A change of password needs the current one and a new one that can be stored. */
  lemma ChangePasswordIff(c: Config, s: State, user: UserRef, current: string, newPassword: string, e: Env)
    ensures var (s', reply) := Perform(c, s, ChangePassword(user, current, newPassword), e);
            && (reply == Done <==>
                  && user.Id? && user.id in s.users && s.users[user.id].password == Bcrypt(current)
                  && Strong(newPassword) && |newPassword| <= 72
                  && e.faults !! {FindById, HashPassword, UpdatePassword})
            && (reply == Done ==> s'.users == s.users[user.id := s.users[user.id].(password := Bcrypt(newPassword))])
            && (reply != Done ==> s' == Started(s, e))
            && s'.tokens == s.tokens
  {
  }

  /** What is answered when a change of password is refused, in the order of the checks. */
  lemma ChangePasswordReplies(c: Config, s: State, user: UserRef, current: string, newPassword: string, e: Env)
    requires FindById !in e.faults
    ensures var reply := Perform(c, s, ChangePassword(user, current, newPassword), e).1;
            && (reply == Failed(Required) <==> user == NoId)
            && (reply == Failed(Malformed) <==> user == BadId)
            && (reply == Failed(UserNotFound) <==> user.Id? && user.id !in s.users)
            && (user.Id? && user.id in s.users && s.users[user.id].password == Bcrypt(current) ==>
                  !Strong(newPassword) ==> reply == Failed(Weak(Judge(newPassword))))
  {
  }

  /** With a wrong current password the answer says so and every table stays as it is. */
  lemma WrongCurrentPassword(c: Config, s: State, u: UserId, current: string, newPassword: string, e: Env)
    requires u in s.users && s.users[u].password != Bcrypt(current) && FindById !in e.faults
    ensures Perform(c, s, ChangePassword(Id(u), current, newPassword), e) == (Started(s, e), Failed(InvalidCredentials))
  {
  }

  /** After a change of password, and until the next one, the next change needs exactly the new password. */
  lemma NextChangeNeedsLatest(c: Config, s: State, call: Call, e: Env, run: seq<Event>, u: UserId,
                              current: string, newPassword: string, e2: Env)
    requires Inv(c, s) && Fresh(s, e) && u in s.users && ChangesPasswordOf(s, call, Perform(c, s, call, e).1, u)
    requires ValidRun(c, Perform(c, s, call, e).0, run) && KeepsPasswordOf(c, Perform(c, s, call, e).0, run, u)
    requires e2.faults == {}
    ensures var s2 := Exec(c, Perform(c, s, call, e).0, run);
            Perform(c, s2, ChangePassword(Id(u), current, newPassword), e2).1 == Done <==>
              current == call.newPassword && Strong(newPassword) && |newPassword| <= 72
  {
    var s1 := Perform(c, s, call, e).0;
    CallKeepsInv(c, s, call, e);
    PasswordChangedBy(c, s, call, e, u);
    PasswordStays(c, s1, run, u);
    ChangePasswordIff(c, Exec(c, s1, run), Id(u), current, newPassword, e2);
  }

  /** A reset needs a stored, unexpired reset token and a new password that can be stored. */
  lemma ResetPasswordIff(c: Config, s: State, token: Secret, newPassword: string, e: Env)
    ensures var (s', reply) := Perform(c, s, ResetPassword(token, newPassword), e);
            && (reply == Done <==>
                  && Strong(newPassword) && |newPassword| <= 72
                  && Sha256(token) in s.tokens && s.tokens[Sha256(token)].purpose == PasswordReset
                  && e.now < s.tokens[Sha256(token)].expiresAt
                  && e.faults !! {FindToken, HashPassword, UpdatePassword})
            && (reply != Done ==> s' == Started(s, e))
            && (!Strong(newPassword) ==> reply == Failed(Weak(Judge(newPassword))))
            && (Strong(newPassword) && FindToken !in e.faults ==>
                  (reply == Failed(InvalidToken) <==> !TokenLive(s, Sha256(token), PasswordReset, e.now)))
  {
  }

  // ----- one-time tokens -----

  /** Whether there is a user of the email is not to be seen from the answer, and only a user gets a token. */
  lemma RequestResetIsSilent(c: Config, s: State, email: string, e: Env)
    requires email != "" && e.faults == {}
    ensures Perform(c, s, RequestPasswordReset(email), e).1 == Done
    ensures !HasEmail(s, email) ==> Perform(c, s, RequestPasswordReset(email), e).0 == Started(s, e)
  {
    EmailFound(Started(s, e), email);
  }

  lemma RequestResetWrites(c: Config, s: State, u: UserId, e: Env)
    requires Inv(c, s) && u in s.users && s.users[u].email != "" && e.faults == {}
    ensures var s' := Perform(c, s, RequestPasswordReset(s.users[u].email), e).0;
            && s'.tokens == s.tokens[Sha256(e.oneTime) := OneTimeToken(u, PasswordReset, e.later + 3_600_000_000)]
            && s'.users == s.users && s'.sessions == s.sessions && s'.issued == s.issued
  {
    assert UserOk(s.users, u);
    ByEmailIsUser(s.users, s.users[u].email);
  }

  /** A verification needs a stored, unexpired verification token. */
  lemma VerifyEmailIff(c: Config, s: State, token: Secret, e: Env)
    ensures var (s', reply) := Perform(c, s, VerifyEmail(token), e);
            && (reply.Verified? <==>
                  && token != "" && Sha256(token) in s.tokens && s.tokens[Sha256(token)].purpose == EmailVerification
                  && e.now < s.tokens[Sha256(token)].expiresAt
                  && e.faults !! {FindToken, MarkVerified})
            && (!reply.Verified? ==> s' == Started(s, e))
            && (reply == Failed(Required) <==> token == "")
            && (token != "" && FindToken !in e.faults ==>
                  (reply == Failed(InvalidToken) <==> !TokenLive(s, Sha256(token), EmailVerification, e.now)))
  {
  }

  /** Only an unverified user gets a new verification token, which then works for exactly 24 hours. */
  lemma ResendFlow(c: Config, s: State, u: UserId, e: Env, e2: Env)
    requires Inv(c, s) && Fresh(s, e) && u in s.users && s.users[u].email != "" && e.faults == {} && e2.faults == {}
    ensures var (s1, reply) := Perform(c, s, ResendVerification(s.users[u].email), e);
            if s.users[u].verifiedAt.Some? then reply == Resent(true) && s1 == Started(s, e)
            else
              && reply == Resent(false) && s1.users == s.users && s1.sessions == s.sessions && s1.issued == s.issued
              && s1.tokens.Keys == s.tokens.Keys + {Sha256(e.oneTime)}
              && (e.oneTime != "" ==>
                    (Perform(c, s1, VerifyEmail(e.oneTime), e2).1 == Verified(u) <==>
                        e2.now < e.later + 86_400_000_000))
  {
    assert UserOk(s.users, u);
    ByEmailIsUser(s.users, s.users[u].email);
    if s.users[u].verifiedAt.None? {
      ResendWrites(c, s, u, e);
    }
  }

  lemma ResendWrites(c: Config, s: State, u: UserId, e: Env)
    requires UsersOk(s) && u in s.users && s.users[u].email != "" && e.faults == {} && s.users[u].verifiedAt.None?
    requires UserByEmail(s.users, s.users[u].email) == Some(u)
    ensures var (s1, reply) := Perform(c, s, ResendVerification(s.users[u].email), e);
            && reply == Resent(false) && s1.users == s.users && s1.sessions == s.sessions && s1.issued == s.issued
            && s1.tokens == s.tokens[Sha256(e.oneTime) := OneTimeToken(u, EmailVerification, e.later + 86_400_000_000)]
  {
  }

  /** An email of nobody gets no token and the same kind of answer. */
  lemma ResendUnknown(c: Config, s: State, email: string, e: Env)
    requires email != "" && FindByEmail !in e.faults && !HasEmail(s, email)
    ensures Perform(c, s, ResendVerification(email), e) == (Started(s, e), Resent(false))
  {
    EmailFound(Started(s, e), email);
  }

  // ----- deactivated accounts -----

  /** Only an operator's update touches the flag. */
  lemma ActiveChangedBy(c: Config, s: State, call: Call, e: Env, u: UserId)
    requires Inv(c, s) && Fresh(s, e) && u in s.users
    ensures u in Perform(c, s, call, e).0.users
    ensures Perform(c, s, call, e).0.users[u].active ==
              if call.SetActive? && call.account == u then call.active else s.users[u].active
  {
    CallFootprint(c, s, call, e);
    if call.Register? {
      RegisterWritesUser(c, s, call, e);
    } else {
      OtherKeepsActive(c, s, call, e, u);
    }
  }

  lemma OtherKeepsActive(c: Config, s: State, call: Call, e: Env, u: UserId)
    requires u in s.users && !call.Register?
    ensures u in Perform(c, s, call, e).0.users
    ensures Perform(c, s, call, e).0.users[u].active ==
              if call.SetActive? && call.account == u then call.active else s.users[u].active
  {
    if call.Login? {
      LoginKeepsActive(c, s, call, e, u);
    }
  }

  lemma LoginKeepsActive(c: Config, s: State, call: Call, e: Env, u: UserId)
    requires u in s.users && call.Login?
    ensures u in Perform(c, s, call, e).0.users
    ensures Perform(c, s, call, e).0.users[u].active == s.users[u].active
  {
    ByEmailIsUser(s.users, call.email);
  }

  ghost predicate NeverReactivates(run: seq<Event>, u: UserId) {
    forall i :: 0 <= i < |run| ==> run[i].call != SetActive(u, true)
  }

  lemma {:induction false} StaysInactive(c: Config, s: State, run: seq<Event>, u: UserId)
    requires Inv(c, s) && ValidRun(c, s, run) && u in s.users && !s.users[u].active && NeverReactivates(run, u)
    ensures u in Exec(c, s, run).users && !Exec(c, s, run).users[u].active
    decreases |run|
  {
    if run != [] {
      assert run[0].call != SetActive(u, true);
      ActiveChangedBy(c, s, run[0].call, run[0].env, u);
      CallKeepsInv(c, s, run[0].call, run[0].env);
      assert forall i :: 0 <= i < |run| - 1 ==> run[1..][i] == run[i + 1];
      StaysInactive(c, Perform(c, s, run[0].call, run[0].env).0, run[1..], u);
    }
  }

  /** Until it is activated again, a deactivated account can neither log in nor refresh. */
  lemma DeactivatedIsOut(c: Config, s: State, run: seq<Event>, u: UserId, password: string, token: Secret, e: Env)
    requires Inv(c, s) && ValidRun(c, s, run) && u in s.users && !s.users[u].active && NeverReactivates(run, u)
    requires token in s.issued && s.issued[token].claims.userId == u
    ensures var s2 := Exec(c, s, run);
            && !Perform(c, s2, Login(s.users[u].email, password), e).1.SignedIn?
            && !Perform(c, s2, RefreshTokens(token), e).1.Refreshed?
  {
    StaysInactive(c, s, run, u);
    EmailForGood(c, s, run, u);
    RunKeepsInv(c, s, run);
    TokenStays(c, s, run, token);
    var s2 := Exec(c, s, run);
    assert UserOk(s2.users, u);
    ByEmailIsUser(s2.users, s.users[u].email);
  }

  // ----- claims and lifetimes -----

  /** In every reachable state the claims of every token, old or new, repeat what its user's row says. */
  lemma ClaimsNeverGoStale(c: Config, run: seq<Event>, k: Secret)
    requires ValidRun(c, INIT, run) && k in Exec(c, INIT, run).issued
    ensures var s := Exec(c, INIT, run);
            var claims := s.issued[k].claims;
            && claims.userId in s.users && claims.email == s.users[claims.userId].email
            && claims.username == s.users[claims.userId].username && claims.role == s.users[claims.userId].role
  {
    InitInv(c);
    RunKeepsInv(c, INIT, run);
    assert JwtOk(c, Exec(c, INIT, run), k);
  }

  /** Both tokens of a pair name the user the reply names. */
  lemma PairNamesUser(c: Config, s: State, call: Call, e: Env)
    requires Fresh(s, e)
    requires var reply := Perform(c, s, call, e).1; reply.Registered? || reply.SignedIn?
    ensures var (s', reply) := Perform(c, s, call, e);
            && e.access in s'.issued && e.refresh in s'.issued
            && s'.issued[e.access].claims.userId == reply.userId == s'.issued[e.refresh].claims.userId
            && reply.access == e.access && reply.refresh == e.refresh
  {
    if call.Login? {
      ByEmailIsUser(s.users, call.email);
    }
  }

  /** A session lifetime that is not positive is replaced by 30 days. */
  lemma ConfiguredLifetimes(accessTtl: Time, refreshTtl: Time, sessionTtl: Time)
    ensures var c := NewConfig(accessTtl, refreshTtl, sessionTtl);
            && c.accessTtl == accessTtl && c.refreshTtl == refreshTtl && c.sessionTtl > 0
            && (sessionTtl > 0 ==> c.sessionTtl == sessionTtl)
            && (sessionTtl <= 0 ==> c.sessionTtl == 2_592_000_000_000)
  {
  }
}
