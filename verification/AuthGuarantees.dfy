/**
 Guarantees over whole runs of service calls with failures: revocation, refresh lineages, the end of old
 credentials after a change of password, and one-time tokens.
 */
module AuthGuarantees {
  import opened Options
  import opened Password
  import opened AuthModel
  import opened AuthInvariant
  import opened AuthFootprint

  // ----- revocation -----

  /** Once a known token has no session row, no run of calls gives it one again. */
  lemma {:induction false} RevokedForGood(c: Config, s: State, run: seq<Event>, token: Secret)
    requires Inv(c, s) && ValidRun(c, s, run)
    requires token in s.minted && Sha256(token) !in s.sessions
    ensures token in Exec(c, s, run).minted && Sha256(token) !in Exec(c, s, run).sessions
    decreases |run|
  {
    if run != [] {
      CallFootprint(c, s, run[0].call, run[0].env);
      CallKeepsInv(c, s, run[0].call, run[0].env);
      RevokedForGood(c, Perform(c, s, run[0].call, run[0].env).0, run[1..], token);
    }
  }

  /** Without a live session row a refresh is rejected and changes nothing but the clock. */
  lemma RefreshNeedsSession(c: Config, s: State, token: Secret, e: Env)
    requires !SessionLive(s, Sha256(token), e.now)
    ensures Perform(c, s, RefreshTokens(token), e).1 in
              {Failed(TokenRejected), Failed(SessionNotFound), Failed(Internal)}
    ensures Perform(c, s, RefreshTokens(token), e).0 == Started(s, e)
  {
  }

  /** Exactly which call removes a session row: the four that mean to, if they get that far and their delete works. */
  lemma RevocationIff(c: Config, s: State, call: Call, e: Env, h: Digest)
    requires Inv(c, s) && Fresh(s, e) && h in s.sessions
    ensures var (s', reply) := Perform(c, s, call, e);
            && (h in s'.sessions ==> s'.sessions[h] == s.sessions[h])
            && (h !in s'.sessions <==>
                  match call
                  case Logout(token) => reply == Done && h == Sha256(token)
                  case RefreshTokens(token) =>
                    h == Sha256(token) && RefreshPasses(s, token, e) && DeleteSession !in e.faults
                  case ResetPassword(token, _) =>
                    && reply == Done && Sha256(token) in s.tokens && DeleteSessions !in e.faults
                    && s.sessions[h].userId == s.tokens[Sha256(token)].userId
                  case ChangePassword(user, _, _) =>
                    reply == Done && user.Id? && s.sessions[h].userId == user.id && DeleteSessions !in e.faults
                  case _ => false)
  {
    FreshIsUnissued(c, s, e);
    assert SessionOk(c, s, h);
    if call.RefreshTokens? {
      RefreshRevokes(c, s, call.token, e, h);
    }
  }

  lemma RefreshRevokes(c: Config, s: State, token: Secret, e: Env, h: Digest)
    requires SessionsOk(c, s) && h in s.sessions && e.refresh !in s.issued
    ensures var s' := Perform(c, s, RefreshTokens(token), e).0;
            && (h in s'.sessions ==> s'.sessions[h] == s.sessions[h])
            && (h !in s'.sessions <==> h == Sha256(token) && RefreshPasses(s, token, e) && DeleteSession !in e.faults)
  {
    assert SessionOk(c, s, h);
    if token in s.issued {
      RefreshRotates(c, s, token, e);
    }
  }

  /** An access token passes the signature check of a refresh, but no run ever lets it refresh. */
  lemma AccessNeverRefreshes(c: Config, run: seq<Event>, token: Secret, e: Env)
    requires ValidRun(c, INIT, run)
    requires var s := Exec(c, INIT, run);
             token in s.issued && s.issued[token].use == Access && Validates(s, token, e.now)
    ensures var s := Exec(c, INIT, run);
            var reply := Perform(c, s, RefreshTokens(token), e).1;
            reply == if FindSession in e.faults then Failed(Internal) else Failed(SessionNotFound)
  {
    InitInv(c);
    RunKeepsInv(c, INIT, run);
    SessionsAreRefreshes(c, Exec(c, INIT, run));
  }

  /** The session table holds hashes of refresh tokens only. */
  lemma SessionsAreRefreshes(c: Config, s: State)
    requires SessionsOk(c, s)
    ensures forall h :: h in s.sessions ==> h.of in s.issued && s.issued[h.of].use == Refresh
  {
    forall h | h in s.sessions
      ensures h.of in s.issued && s.issued[h.of].use == Refresh
    {
      assert SessionOk(c, s, h);
    }
  }

  lemma ExpiresInTime(c: Config, s: State)
    requires IssuedOk(c, s)
    ensures forall k :: k in s.issued ==> s.issued[k].claims.expiresAt <= s.now + Lifetime(c, s.issued[k].use)
  {
    forall k | k in s.issued
      ensures s.issued[k].claims.expiresAt <= s.now + Lifetime(c, s.issued[k].use)
    {
      assert JwtOk(c, s, k);
    }
  }

  // ----- lineage -----

  /** The token at the start of the refresh chain. */
  function Root(issued: map<Secret, Jwt>, k: Secret): Jwt
    requires k in issued
    decreases issued[k].stamp
  {
    var jwt := issued[k];
    if jwt.via.ByRefresh? && jwt.via.redeemed in issued && issued[jwt.via.redeemed].stamp < jwt.stamp
    then Root(issued, jwt.via.redeemed)
    else jwt
  }

  /** A chain starts at a registration or a login, and keeps one subject from its root to its tip. */
  lemma {:induction false} ChainKeepsSubject(c: Config, s: State, k: Secret)
    requires IssuedOk(c, s) && k in s.issued
    ensures !Root(s.issued, k).via.ByRefresh?
    ensures Root(s.issued, k).claims.userId == s.issued[k].claims.userId
    decreases s.issued[k].stamp
  {
    assert JwtOk(c, s, k);
    if s.issued[k].via.ByRefresh? {
      ChainKeepsSubject(c, s, s.issued[k].via.redeemed);
    }
  }

  lemma {:induction false} RootStays(c: Config, s: State, issued: map<Secret, Jwt>, k: Secret)
    requires IssuedOk(c, s) && k in s.issued
    requires forall j :: j in s.issued ==> j in issued && issued[j] == s.issued[j]
    ensures Root(issued, k) == Root(s.issued, k)
    decreases s.issued[k].stamp
  {
    assert JwtOk(c, s, k);
    if s.issued[k].via.ByRefresh? {
      RootStays(c, s, issued, s.issued[k].via.redeemed);
    }
  }

  /** In every reachable state a refresh issues to the owner of the session row, who is the chain's subject. */
  lemma RefreshKeepsSubject(c: Config, run: seq<Event>, token: Secret, e: Env)
    requires ValidRun(c, INIT, run) && Fresh(Exec(c, INIT, run), e)
    requires Perform(c, Exec(c, INIT, run), RefreshTokens(token), e).1.Refreshed?
    ensures var s := Exec(c, INIT, run);
            var s' := Perform(c, s, RefreshTokens(token), e).0;
            && Sha256(token) in s.sessions && token in s.issued && s.issued[token].use == Refresh
            && e.access in s'.issued && e.refresh in s'.issued
            && s'.issued[e.access].claims.userId == s.sessions[Sha256(token)].userId
            && s'.issued[e.refresh].claims.userId == s.sessions[Sha256(token)].userId
            && Root(s'.issued, e.access) == Root(s.issued, token) == Root(s'.issued, e.refresh)
            && Root(s.issued, token).claims.userId == s.sessions[Sha256(token)].userId
  {
    InitInv(c);
    RunKeepsInv(c, INIT, run);
    var s := Exec(c, INIT, run);
    assert SessionOk(c, s, Sha256(token)) && JwtOk(c, s, token);
    CallFootprint(c, s, RefreshTokens(token), e);
    ChainKeepsSubject(c, s, token);
    RootStays(c, s, Perform(c, s, RefreshTokens(token), e).0.issued, token);
  }

  /** The chain starts at a login that came after call number `n`. */
  ghost predicate AfterLogin(issued: map<Secret, Jwt>, k: Secret, n: nat) {
    k in issued && Root(issued, k).via.ByLogin? && Root(issued, k).stamp > n
  }

  /** Every session of the user, and every token signed for the user since call `n`, descends from a later login. */
  ghost predicate OnlyLaterLogins(s: State, u: UserId, n: nat) {
    && (forall h :: h in s.sessions && s.sessions[h].userId == u ==> AfterLogin(s.issued, h.of, n))
    && (forall k :: k in s.issued && s.issued[k].claims.userId == u && s.issued[k].stamp > n ==>
          AfterLogin(s.issued, k, n))
  }

  lemma NewTokenIsLater(c: Config, s: State, s': State, e: Env, u: UserId, n: nat, k: Secret)
    requires Inv(c, s) && Fresh(s, e) && Footprint(s, s', e) && OnlyLaterLogins(s, u, n) && u in s.users && n <= s.calls
    requires k in s'.issued && s'.issued[k].claims.userId == u && s'.issued[k].stamp > n
    ensures AfterLogin(s'.issued, k, n)
  {
    if k in s.issued {
      RootStays(c, s, s'.issued, k);
    } else if s'.issued[k].via.ByRefresh? {
      var p := s'.issued[k].via.redeemed;
      assert SessionOk(c, s, Sha256(p)) && JwtOk(c, s, p);
      RootStays(c, s, s'.issued, p);
    }
  }

  lemma CallKeepsLaterLogins(c: Config, s: State, call: Call, e: Env, u: UserId, n: nat)
    requires Inv(c, s) && Fresh(s, e) && OnlyLaterLogins(s, u, n) && u in s.users && n <= s.calls
    ensures OnlyLaterLogins(Perform(c, s, call, e).0, u, n)
  {
    var s' := Perform(c, s, call, e).0;
    CallFootprint(c, s, call, e);
    forall k | k in s'.issued && s'.issued[k].claims.userId == u && s'.issued[k].stamp > n
      ensures AfterLogin(s'.issued, k, n)
    {
      NewTokenIsLater(c, s, s', e, u, n, k);
    }
    forall h | h in s'.sessions && s'.sessions[h].userId == u
      ensures AfterLogin(s'.issued, h.of, n)
    {
      if h in s.sessions && s'.sessions[h] == s.sessions[h] {
        assert SessionOk(c, s, h);
        RootStays(c, s, s'.issued, h.of);
      } else {
        FreshIsUnissued(c, s, e);
        NewTokenIsLater(c, s, s', e, u, n, e.refresh);
      }
    }
  }

  lemma {:induction false} RunKeepsLaterLogins(c: Config, s: State, run: seq<Event>, u: UserId, n: nat)
    requires Inv(c, s) && ValidRun(c, s, run) && OnlyLaterLogins(s, u, n) && u in s.users && n <= s.calls
    ensures OnlyLaterLogins(Exec(c, s, run), u, n)
    decreases |run|
  {
    if run != [] {
      CallKeepsLaterLogins(c, s, run[0].call, run[0].env, u, n);
      CallFootprint(c, s, run[0].call, run[0].env);
      CallKeepsInv(c, s, run[0].call, run[0].env);
      RunKeepsLaterLogins(c, Perform(c, s, run[0].call, run[0].env).0, run[1..], u, n);
    }
  }

  /** Tokens known to a state keep their record in every later one, and others carry a later stamp. */
  lemma {:induction false} RunKeepsTokens(c: Config, s: State, run: seq<Event>, k: Secret)
    requires Inv(c, s) && ValidRun(c, s, run) && k in Exec(c, s, run).issued
    ensures if k in s.issued then Exec(c, s, run).issued[k] == s.issued[k]
            else Exec(c, s, run).issued[k].stamp > s.calls
    decreases |run|
  {
    if run != [] {
      CallFootprint(c, s, run[0].call, run[0].env);
      CallKeepsInv(c, s, run[0].call, run[0].env);
      RunKeepsTokens(c, Perform(c, s, run[0].call, run[0].env).0, run[1..], k);
    }
  }

  /** The user whose password a call changes. */
  function Owner(s: State, call: Call): Option<UserId> {
    match call
    case ResetPassword(token, _) => if Sha256(token) in s.tokens then Some(s.tokens[Sha256(token)].userId) else None
    case ChangePassword(user, _, _) => if user.Id? then Some(user.id) else None
    case _ => None
  }

  /** Right after a successful change of password, with the session delete working, the user has no session. */
  lemma PasswordChangeClears(c: Config, s: State, call: Call, e: Env)
    requires Inv(c, s) && Fresh(s, e) && (call.ResetPassword? || call.ChangePassword?)
    requires Perform(c, s, call, e).1 == Done && DeleteSessions !in e.faults
    ensures Owner(s, call).Some? && Owner(s, call).value in Perform(c, s, call, e).0.users
    ensures Perform(c, s, call, e).0.issued == s.issued
    ensures forall h :: h in Perform(c, s, call, e).0.sessions ==>
              Perform(c, s, call, e).0.sessions[h].userId != Owner(s, call).value
    ensures OnlyLaterLogins(Perform(c, s, call, e).0, Owner(s, call).value, s.calls + 1)
  {
    var s' := Perform(c, s, call, e).0;
    assert s'.issued == s.issued;
    forall k | k in s'.issued
      ensures s'.issued[k].stamp <= s.calls
    {
      assert JwtOk(c, s, k);
    }
  }

  /**
   Old credentials die out: after a successful reset or change of password at time T, a token of the user,
   access or refresh, that validates its own lifetime after T or later was signed after the change, and its
   refresh chain starts at a login made after the change. Only the session delete has to have worked.
   */
  lemma OldCredentialsDieOut(c: Config, s: State, call: Call, e: Env, run: seq<Event>, k: Secret, t: Time)
    requires Inv(c, s) && Fresh(s, e) && (call.ResetPassword? || call.ChangePassword?)
    requires Perform(c, s, call, e).1 == Done && DeleteSessions !in e.faults
    requires ValidRun(c, Perform(c, s, call, e).0, run)
    requires var s2 := Exec(c, Perform(c, s, call, e).0, run);
             && k in s2.issued && Owner(s, call) == Some(s2.issued[k].claims.userId)
             && Validates(s2, k, t) && t >= e.later + Lifetime(c, s2.issued[k].use)
    ensures var s2 := Exec(c, Perform(c, s, call, e).0, run);
            && s2.issued[k].stamp > s.calls + 1 && AfterLogin(s2.issued, k, s.calls + 1)
            && Owner(s, call) == Some(Root(s2.issued, k).claims.userId)
  {
    var s1 := Perform(c, s, call, e).0;
    var u := Owner(s, call).value;
    CallKeepsInv(c, s, call, e);
    PasswordChangeClears(c, s, call, e);
    assert s1.calls == s.calls + 1 && s1.now == e.later by { CallAdvances(c, s, call, e); }
    RunKeepsLaterLogins(c, s1, run, u, s1.calls);
    RunKeepsTokens(c, s1, run, k);
    ExpiresInTime(c, s1);
    RunKeepsInv(c, s1, run);
    ChainKeepsSubject(c, Exec(c, s1, run), k);
  }

  /** A signed token keeps its record. */
  lemma {:induction false} TokenStays(c: Config, s: State, run: seq<Event>, k: Secret)
    requires Inv(c, s) && ValidRun(c, s, run) && k in s.issued
    ensures k in Exec(c, s, run).issued && Exec(c, s, run).issued[k] == s.issued[k]
    decreases |run|
  {
    if run != [] {
      CallFootprint(c, s, run[0].call, run[0].env);
      CallKeepsInv(c, s, run[0].call, run[0].env);
      TokenStays(c, Perform(c, s, run[0].call, run[0].env).0, run[1..], k);
    }
  }

  /** No run of calls, with whatever logouts and changes of password, makes a signed token stop or start to validate. */
  lemma SignedForItsTime(c: Config, s: State, run: seq<Event>, k: Secret, t: Time)
    requires Inv(c, s) && ValidRun(c, s, run) && k in s.issued
    ensures k in Exec(c, s, run).issued && (Validates(Exec(c, s, run), k, t) <==> Validates(s, k, t))
  {
    TokenStays(c, s, run, k);
  }

  /**
   The shorter bound does not hold for refresh tokens: one signed before the change passes ValidateToken for
   the rest of its own lifetime, also where an access token is asked for. It only never refreshes again.
   */
  lemma OldRefreshTokenPasses(c: Config, s: State, call: Call, e: Env, run: seq<Event>, k: Secret, t: Time, e2: Env)
    requires Inv(c, s) && Fresh(s, e) && (call.ResetPassword? || call.ChangePassword?)
    requires Perform(c, s, call, e).1 == Done && DeleteSessions !in e.faults
    requires ValidRun(c, Perform(c, s, call, e).0, run)
    requires k in s.issued && Owner(s, call) == Some(s.issued[k].claims.userId)
    ensures var s2 := Exec(c, Perform(c, s, call, e).0, run);
            && (Validates(s2, k, t) <==> Validates(s, k, t))
            && !Perform(c, s2, RefreshTokens(k), e2).1.Refreshed?
  {
    var s1 := Perform(c, s, call, e).0;
    CallKeepsInv(c, s, call, e);
    PasswordChangeClears(c, s, call, e);
    assert JwtOk(c, s1, k);
    forall h | h in s1.sessions
      ensures h != Sha256(k)
    {
      assert SessionOk(c, s1, h);
    }
    SignedForItsTime(c, s1, run, k, t);
    RevokedForGood(c, s1, run, k);
    RefreshNeedsSession(c, Exec(c, s1, run), k, e2);
  }

  // ----- expiry of sessions -----

  /** With a session lifetime of at least the refresh lifetime, a live token that was not revoked finds its session. */
  lemma LiveTokenFindsSession(c: Config, run: seq<Event>, token: Secret, t: Time)
    requires ValidRun(c, INIT, run) && c.sessionTtl >= c.refreshTtl
    requires Validates(Exec(c, INIT, run), token, t) && Sha256(token) in Exec(c, INIT, run).sessions
    ensures SessionLive(Exec(c, INIT, run), Sha256(token), t)
  {
    InitInv(c);
    RunKeepsInv(c, INIT, run);
    assert SessionOk(c, Exec(c, INIT, run), Sha256(token));
  }

  /** A session opened at `now` expires no earlier than the token signed at `now`. */
  predicate Outlives(refreshTtl: Time, sessionTtl: Time, now: Time) {
    now + sessionTtl >= FloorSecond(now + refreshTtl)
  }

  /** Truncation to a second cannot make up for a shorter session lifetime. */
  lemma SessionOutlivesTokenIff(refreshTtl: Time, sessionTtl: Time)
    ensures (forall now: Time :: now >= 0 ==> Outlives(refreshTtl, sessionTtl, now)) <==> sessionTtl >= refreshTtl
  {
    if sessionTtl < refreshTtl {
      var seconds := if refreshTtl < 0 then 0 else refreshTtl;
      var now := seconds * SECOND - refreshTtl;
      assert FloorSecond(now + refreshTtl) == seconds * SECOND;
      assert now >= 0 && !Outlives(refreshTtl, sessionTtl, now);
    }
  }

  // ----- sessions under partial failure -----

  function SessionsOf(s: State, u: UserId): set<Digest> {
    set h | h in s.sessions && s.sessions[h].userId == u
  }

  lemma RotateSessions(c: Config, s: State, token: Secret, u: UserId, e: Env)
    requires u in s.users && Sha256(token) in s.sessions && s.sessions[Sha256(token)].userId == u
    requires Sha256(e.refresh) !in s.sessions
    ensures var (s', reply) := Rotate(c, s, token, u, e);
            var kept := if DeleteSession in e.faults then SessionsOf(s, u) else SessionsOf(s, u) - {Sha256(token)};
            && SessionsOf(s', u) == kept + (if reply.Refreshed? then {Sha256(e.refresh)} else {})
            && (forall v :: v != u ==> SessionsOf(s', v) == SessionsOf(s, v))
  {
  }

  /** Every check of a refresh before its first write passes. */
  predicate RefreshPasses(s: State, token: Secret, e: Env) {
    && Validates(s, token, e.now) && FindSession !in e.faults && SessionLive(s, Sha256(token), e.now)
    && var u := s.issued[token].claims.userId;
       FindById !in e.faults && u in s.users && s.users[u].active
  }

  /** A refresh that passes rotates the session of the token's user; any other leaves the tables alone. */
  lemma RefreshRotates(c: Config, s: State, token: Secret, e: Env)
    requires SessionsOk(c, s) && token in s.issued
    ensures var (s', reply) := Perform(c, s, RefreshTokens(token), e);
            var u := s.issued[token].claims.userId;
            if RefreshPasses(s, token, e)
            then Sha256(token) in s.sessions && s.sessions[Sha256(token)].userId == u && u in s.users
                 && (s', reply) == Rotate(c, Started(s, e), token, u, e)
            else s' == Started(s, e) && reply.Failed?
  {
    if Sha256(token) in s.sessions {
      assert SessionOk(c, s, Sha256(token));
    }
  }

  /**
   What a refresh does to the number of sessions of its user, whatever fails: one is opened exactly if it
   succeeds, one is closed exactly if its checks passed and the ignored delete worked.
   */
  lemma RefreshSessionCount(c: Config, s: State, token: Secret, e: Env)
    requires Inv(c, s) && Fresh(s, e) && token in s.issued
    ensures var u := s.issued[token].claims.userId;
            var (s', reply) := Perform(c, s, RefreshTokens(token), e);
            && (reply.Refreshed? <==> RefreshPasses(s, token, e) && e.faults !! {SignTokens, CreateSession})
            && |SessionsOf(s', u)| == |SessionsOf(s, u)|
                 + (if RefreshPasses(s, token, e) && e.faults !! {SignTokens, CreateSession} then 1 else 0)
                 - (if RefreshPasses(s, token, e) && DeleteSession !in e.faults then 1 else 0)
            && (forall v :: v != u ==> SessionsOf(s', v) == SessionsOf(s, v))
  {
    FreshIsUnissued(c, s, e);
    SessionsAreRefreshes(c, s);
    RefreshRotates(c, s, token, e);
    var u := s.issued[token].claims.userId;
    assert forall v :: SessionsOf(Started(s, e), v) == SessionsOf(s, v);
    if RefreshPasses(s, token, e) {
      RotateSessions(c, Started(s, e), token, u, e);
      assert Sha256(token) in SessionsOf(s, u) && Sha256(e.refresh) !in SessionsOf(s, u);
    }
  }

  // ----- one-time tokens -----

  /** A one-time token keeps its user, purpose and expiry for as long as it is stored. */
  lemma {:induction false} TokenKeepsTerms(c: Config, s: State, run: seq<Event>, token: Secret)
    requires Inv(c, s) && ValidRun(c, s, run) && token in s.minted
    ensures var h := Sha256(token);
            h in Exec(c, s, run).tokens ==> h in s.tokens && Exec(c, s, run).tokens[h] == s.tokens[h]
    decreases |run|
  {
    if run != [] {
      CallFootprint(c, s, run[0].call, run[0].env);
      CallKeepsInv(c, s, run[0].call, run[0].env);
      TokenKeepsTerms(c, Perform(c, s, run[0].call, run[0].env).0, run[1..], token);
    }
  }

  /** The calls that redeem a one-time token, and what they answer when they do. */
  predicate Redeems(call: Call, token: Secret, reply: Reply) {
    || (call.ResetPassword? && call.token == token && reply == Done)
    || (call.VerifyEmail? && call.token == token && reply.Verified?)
  }

  /** A redemption at one moment: the stored token fits, and only its user's row changes, in the one field. */
  lemma RedemptionFits(c: Config, s: State, call: Call, e: Env, token: Secret)
    requires TokensOk(s) && Redeems(call, token, Perform(c, s, call, e).1)
    ensures var h := Sha256(token);
            && h in s.tokens && s.tokens[h].userId in s.users && token in s.minted
            && e.now < s.tokens[h].expiresAt
            && s.tokens[h].purpose == (if call.ResetPassword? then PasswordReset else EmailVerification)
            && Perform(c, s, call, e).0.users == s.users[s.tokens[h].userId :=
                 if call.ResetPassword? then s.users[s.tokens[h].userId].(password := Bcrypt(call.newPassword))
                 else s.users[s.tokens[h].userId].(verifiedAt := Some(e.later))]
            && (call.VerifyEmail? ==> Perform(c, s, call, e).1 == Verified(s.tokens[h].userId))
            && (h in Perform(c, s, call, e).0.tokens <==> DeleteToken in e.faults)
            && s.minted == Perform(c, s, call, e).0.minted
  {
  }

  /** Whenever a token is redeemed later, it is for its purpose, before its expiry and for its user alone. */
  lemma RedeemedOnItsTerms(c: Config, s: State, run: seq<Event>, call: Call, e: Env, token: Secret)
    requires Inv(c, s) && ValidRun(c, s, run) && token in s.minted
    requires Redeems(call, token, Perform(c, Exec(c, s, run), call, e).1)
    ensures Sha256(token) in s.tokens
    ensures var granted := s.tokens[Sha256(token)];
            var s1 := Exec(c, s, run);
            && granted.userId in s1.users && e.now < granted.expiresAt
            && granted.purpose == (if call.ResetPassword? then PasswordReset else EmailVerification)
            && Perform(c, s1, call, e).0.users == s1.users[granted.userId :=
                 if call.ResetPassword? then s1.users[granted.userId].(password := Bcrypt(call.newPassword))
                 else s1.users[granted.userId].(verifiedAt := Some(e.later))]
            && (call.VerifyEmail? ==> Perform(c, s1, call, e).1 == Verified(granted.userId))
  {
    TokenKeepsTerms(c, s, run, token);
    RunKeepsInv(c, s, run);
    RedemptionFits(c, Exec(c, s, run), call, e, token);
  }

  /** After a redemption whose delete worked, no run lets the token be redeemed again. */
  lemma RedeemedOnce(c: Config, s: State, call: Call, e: Env, run: seq<Event>, again: Call, e2: Env, token: Secret)
    requires Inv(c, s) && Fresh(s, e) && Redeems(call, token, Perform(c, s, call, e).1) && DeleteToken !in e.faults
    requires ValidRun(c, Perform(c, s, call, e).0, run)
    ensures !Redeems(again, token, Perform(c, Exec(c, Perform(c, s, call, e).0, run), again, e2).1)
  {
    CallKeepsInv(c, s, call, e);
    RedemptionFits(c, s, call, e, token);
    GoneForGood(c, Perform(c, s, call, e).0, run, again, e2, token);
  }

  lemma GoneForGood(c: Config, s: State, run: seq<Event>, again: Call, e2: Env, token: Secret)
    requires Inv(c, s) && ValidRun(c, s, run) && token in s.minted && Sha256(token) !in s.tokens
    ensures !Redeems(again, token, Perform(c, Exec(c, s, run), again, e2).1)
  {
    TokenKeepsTerms(c, s, run, token);
    RunKeepsInv(c, s, run);
    if Redeems(again, token, Perform(c, Exec(c, s, run), again, e2).1) {
      RedemptionFits(c, Exec(c, s, run), again, e2, token);
    }
  }

  /** No event of the run redeems the token and deletes it. */
  ghost predicate KeepsToken(c: Config, s: State, run: seq<Event>, token: Secret)
    requires ValidRun(c, s, run)
    decreases |run|
  {
    run == [] ||
      var (s', reply) := Perform(c, s, run[0].call, run[0].env);
      !(Redeems(run[0].call, token, reply) && DeleteToken !in run[0].env.faults) && KeepsToken(c, s', run[1..], token)
  }

  /** One call removes a stored token exactly by redeeming it with a delete that works. */
  lemma RemovedIff(c: Config, s: State, call: Call, e: Env, token: Secret)
    requires Fresh(s, e) && Sha256(token) in s.tokens
    ensures Sha256(token) !in Perform(c, s, call, e).0.tokens <==>
              Redeems(call, token, Perform(c, s, call, e).1) && DeleteToken !in e.faults
  {
    if !call.ResetPassword? && !call.VerifyEmail? {
      OtherKeepsToken(c, s, call, e, Sha256(token));
    }
  }

  lemma OtherKeepsToken(c: Config, s: State, call: Call, e: Env, h: Digest)
    requires h in s.tokens && !call.ResetPassword? && !call.VerifyEmail?
    ensures h in Perform(c, s, call, e).0.tokens
  {
  }

  lemma {:induction false} StoredIff(c: Config, s: State, run: seq<Event>, token: Secret)
    requires Inv(c, s) && ValidRun(c, s, run) && token in s.minted && Sha256(token) in s.tokens
    ensures Sha256(token) in Exec(c, s, run).tokens <==> KeepsToken(c, s, run, token)
    decreases |run|
  {
    if run != [] {
      var s' := Perform(c, s, run[0].call, run[0].env).0;
      CallFootprint(c, s, run[0].call, run[0].env);
      CallKeepsInv(c, s, run[0].call, run[0].env);
      RemovedIff(c, s, run[0].call, run[0].env, token);
      if Sha256(token) in s'.tokens {
        StoredIff(c, s', run[1..], token);
      } else {
        TokenKeepsTerms(c, s', run[1..], token);
      }
    }
  }

  /** A call that offers the token for its purpose, with a password that can be stored. */
  predicate Offers(call: Call, token: Secret, purpose: Purpose) {
    match purpose
    case PasswordReset => call.ResetPassword? && call.token == token && Storable(call.newPassword)
    case EmailVerification => call.VerifyEmail? && call.token == token && token != ""
  }

  /**
   After any run, a token offered before its expiry is redeemed exactly if no event of the run redeemed
   and deleted it.
   */
  lemma RedeemedIff(c: Config, s: State, run: seq<Event>, call: Call, e: Env, token: Secret)
    requires Inv(c, s) && ValidRun(c, s, run) && token in s.minted && Sha256(token) in s.tokens
    requires Offers(call, token, s.tokens[Sha256(token)].purpose)
    requires e.faults == {} && e.now < s.tokens[Sha256(token)].expiresAt
    ensures Redeems(call, token, Perform(c, Exec(c, s, run), call, e).1) <==> KeepsToken(c, s, run, token)
  {
    StoredIff(c, s, run, token);
    TokenKeepsTerms(c, s, run, token);
    OfferedIff(c, Exec(c, s, run), call, e, token, s.tokens[Sha256(token)]);
  }

  lemma OfferedIff(c: Config, s: State, call: Call, e: Env, token: Secret, terms: OneTimeToken)
    requires Sha256(token) in s.tokens ==> s.tokens[Sha256(token)] == terms
    requires Offers(call, token, terms.purpose) && e.faults == {} && e.now < terms.expiresAt
    ensures Redeems(call, token, Perform(c, s, call, e).1) <==> Sha256(token) in s.tokens
  {
  }

  /**
   The delete is what makes it once: after any run a redeemed token works again exactly if every delete
   so far has failed.
   */
  lemma RedeemedTwiceIff(c: Config, s: State, call: Call, e: Env, run: seq<Event>, again: Call, e2: Env, token: Secret)
    requires Inv(c, s) && Fresh(s, e) && Redeems(call, token, Perform(c, s, call, e).1)
    requires ValidRun(c, Perform(c, s, call, e).0, run)
    requires Sha256(token) in s.tokens && Offers(again, token, s.tokens[Sha256(token)].purpose)
    requires e2.faults == {} && e2.now < s.tokens[Sha256(token)].expiresAt
    ensures Redeems(again, token, Perform(c, Exec(c, Perform(c, s, call, e).0, run), again, e2).1) <==>
              DeleteToken in e.faults && KeepsToken(c, Perform(c, s, call, e).0, run, token)
  {
    CallKeepsInv(c, s, call, e);
    RedemptionFits(c, s, call, e, token);
    if DeleteToken in e.faults {
      CallFootprint(c, s, call, e);
      RedeemedIff(c, Perform(c, s, call, e).0, run, again, e2, token);
    } else {
      GoneForGood(c, Perform(c, s, call, e).0, run, again, e2, token);
    }
  }

  /** A verified email stays verified, and a registered one cannot be registered again. */
  lemma {:induction false} EmailForGood(c: Config, s: State, run: seq<Event>, u: UserId)
    requires Inv(c, s) && ValidRun(c, s, run) && u in s.users
    ensures u in Exec(c, s, run).users && Exec(c, s, run).users[u].email == s.users[u].email
    ensures s.users[u].verifiedAt.Some? ==> Exec(c, s, run).users[u].verifiedAt.Some?
    decreases |run|
  {
    if run != [] {
      CallFootprint(c, s, run[0].call, run[0].env);
      CallKeepsInv(c, s, run[0].call, run[0].env);
      EmailForGood(c, Perform(c, s, run[0].call, run[0].env).0, run[1..], u);
    }
  }

  /**
   A registration that wrote the user row and failed afterwards cannot be repeated: from then on the
   email answers every further registration with a failure.
   */
  lemma RegisteredOnce(c: Config, s: State, run: seq<Event>, u: UserId, call: Call, e: Env)
    requires Inv(c, s) && ValidRun(c, s, run) && u in s.users && call.Register? && call.email == s.users[u].email
    ensures Perform(c, Exec(c, s, run), call, e).1.Failed?
    ensures Perform(c, Exec(c, s, run), call, e).0.users == Exec(c, s, run).users
  {
    EmailForGood(c, s, run, u);
    assert Exec(c, s, run).users[u].email == call.email;
  }

  /** Every stored password hash, in every reachable state, is the hash of a strong password. */
  lemma PasswordsAreStrong(c: Config, run: seq<Event>, u: UserId)
    requires ValidRun(c, INIT, run) && u in Exec(c, INIT, run).users
    ensures Judge(Exec(c, INIT, run).users[u].password.of) == Accepted
    ensures |Exec(c, INIT, run).users[u].password.of| <= 72
  {
    InitInv(c);
    RunKeepsInv(c, INIT, run);
    assert UserOk(Exec(c, INIT, run).users, u);
  }
}
