/**
 What every service call keeps, whichever of its repository calls fail: referential integrity, unique
 emails, strong passwords, and the tie between a session row and the refresh token whose hash it stores.
 */
module AuthInvariant {
  import opened Options
  import opened Password
  import opened AuthModel

  /** The user's password is strong and could be hashed, and nobody else has the email or the username. */
  ghost predicate UserOk(users: map<UserId, User>, id: UserId)
    requires id in users
  {
    && Storable(users[id].password.of)
    && forall b :: b in users && (users[b].email == users[id].email || users[b].username == users[id].username) ==>
          b == id
  }

  ghost predicate UsersOk(s: State) {
    forall id {:trigger UserOk(s.users, id)} :: id in s.users ==> UserOk(s.users, id)
  }

  ghost predicate SessionOk(c: Config, s: State, h: Digest)
    requires h in s.sessions
  {
    && h.of in s.issued && s.issued[h.of].use == Refresh
    && s.issued[h.of].claims.userId == s.sessions[h].userId
    && s.sessions[h].userId in s.users
    && (c.sessionTtl >= c.refreshTtl ==> s.sessions[h].expiresAt >= s.issued[h.of].claims.expiresAt)
  }

  ghost predicate SessionsOk(c: Config, s: State) {
    forall h {:trigger SessionOk(c, s, h)} :: h in s.sessions ==> SessionOk(c, s, h)
  }

  ghost predicate TokensOk(s: State) {
    forall h :: h in s.tokens ==> h.of in s.minted && h.of !in s.issued && s.tokens[h].userId in s.users
  }

  /** Nothing the claims repeat of a user has changed. */
  predicate SameIdentity(u: User, v: User) {
    u.email == v.email && u.username == v.username && u.role == v.role
  }

  /** The claims still say what the user's row says. */
  predicate ClaimsFit(claims: Claims, u: User) {
    claims.email == u.email && claims.username == u.username && claims.role == u.role
  }

  ghost predicate JwtOk(c: Config, s: State, k: Secret)
    requires k in s.issued
  {
    var jwt := s.issued[k];
    && k in s.minted && jwt.claims.userId in s.users && jwt.stamp <= s.calls
    && ClaimsFit(jwt.claims, s.users[jwt.claims.userId])
    && jwt.claims.expiresAt <= s.now + Lifetime(c, jwt.use)
    && (jwt.via.ByRefresh? ==>
          && jwt.via.redeemed in s.issued && s.issued[jwt.via.redeemed].use == Refresh
          && s.issued[jwt.via.redeemed].stamp < jwt.stamp
          && s.issued[jwt.via.redeemed].claims.userId == jwt.claims.userId)
  }

  ghost predicate IssuedOk(c: Config, s: State) {
    forall k {:trigger JwtOk(c, s, k)} :: k in s.issued ==> JwtOk(c, s, k)
  }

  ghost predicate Inv(c: Config, s: State) {
    UsersOk(s) && SessionsOk(c, s) && TokensOk(s) && IssuedOk(c, s)
  }

  lemma InitInv(c: Config)
    ensures Inv(c, INIT)
  {
  }

  lemma StartKeepsInv(c: Config, s: State, e: Env)
    requires Inv(c, s) && Fresh(s, e)
    ensures Inv(c, Started(s, e)) && forall k :: k in s.issued ==> s.issued[k].stamp < Started(s, e).calls
  {
    var s' := Started(s, e);
    forall k | k in s'.issued
      ensures JwtOk(c, s', k) && s.issued[k].stamp <= s.calls
    {
      assert JwtOk(c, s, k);
    }
    forall h | h in s'.sessions
      ensures SessionOk(c, s', h)
    {
      assert SessionOk(c, s, h);
    }
  }

  /** Users may be added and their other fields changed. */
  lemma UsersChange(c: Config, s: State, s': State)
    requires Inv(c, s) && s' == s.(users := s'.users) && UsersOk(s')
    requires forall id :: id in s.users ==> id in s'.users && SameIdentity(s'.users[id], s.users[id])
    ensures Inv(c, s')
  {
    forall k | k in s'.issued
      ensures JwtOk(c, s', k)
    {
      assert JwtOk(c, s, k);
    }
    forall h | h in s'.sessions
      ensures SessionOk(c, s', h)
    {
      assert SessionOk(c, s, h);
    }
  }

  lemma AddUserKeepsInv(c: Config, s: State, id: UserId, u: User)
    requires Inv(c, s) && id !in s.users && Storable(u.password.of)
    requires UserByEmail(s.users, u.email).None? && !UsernameTaken(s.users, u.username)
    ensures Inv(c, AddUser(s, id, u))
  {
    AddUserKeepsUsers(s, id, u);
    UsersChange(c, s, AddUser(s, id, u));
  }

  lemma PutUserKeepsUsers(s: State, id: UserId, u: User)
    requires UsersOk(s) && id in s.users && Storable(u.password.of)
    requires SameIdentity(u, s.users[id])
    ensures UsersOk(PutUser(s, id, u))
  {
    var s' := PutUser(s, id, u);
    forall k | k in s'.users
      ensures UserOk(s'.users, k)
    {
      assert UserOk(s.users, k);
    }
  }

  lemma AddUserKeepsUsers(s: State, id: UserId, u: User)
    requires UsersOk(s) && id !in s.users && Storable(u.password.of)
    requires UserByEmail(s.users, u.email).None? && !UsernameTaken(s.users, u.username)
    ensures UsersOk(AddUser(s, id, u))
  {
    var s' := AddUser(s, id, u);
    forall k | k in s'.users
      ensures UserOk(s'.users, k)
    {
      if k != id {
        assert UserOk(s.users, k);
      }
    }
  }

  lemma PutUserKeepsInv(c: Config, s: State, id: UserId, u: User)
    requires Inv(c, s) && id in s.users && Storable(u.password.of)
    requires SameIdentity(u, s.users[id])
    ensures Inv(c, PutUser(s, id, u))
  {
    PutUserKeepsUsers(s, id, u);
    UsersChange(c, s, PutUser(s, id, u));
  }

  predicate SecretsFresh(s: State, e: Env) {
    e.access !in s.minted && e.refresh !in s.minted && e.access != e.refresh
  }

  /** A refresh is chained to an earlier refresh token of the same user. */
  predicate ViaOk(s: State, id: UserId, via: Via) {
    via.ByRefresh? ==>
      && via.redeemed in s.issued && s.issued[via.redeemed].use == Refresh
      && s.issued[via.redeemed].stamp < s.calls && s.issued[via.redeemed].claims.userId == id
  }

  lemma MintKeepsIssued(c: Config, s: State, id: UserId, via: Via, e: Env)
    requires IssuedOk(c, s) && id in s.users && SecretsFresh(s, e) && e.now <= s.now && ViaOk(s, id, via)
    ensures IssuedOk(c, Mint(c, s, id, via, e))
    ensures forall k :: k in s.issued ==>
              k in Mint(c, s, id, via, e).issued && Mint(c, s, id, via, e).issued[k] == s.issued[k]
  {
    var s' := Mint(c, s, id, via, e);
    forall k | k in s.issued
      ensures k in s'.issued && s'.issued[k] == s.issued[k]
    {
      assert JwtOk(c, s, k);
    }
    forall k | k in s'.issued
      ensures JwtOk(c, s', k)
    {
      if k in s.issued {
        assert JwtOk(c, s, k);
      }
    }
  }

  lemma MintKeepsInv(c: Config, s: State, id: UserId, via: Via, e: Env)
    requires Inv(c, s) && id in s.users && SecretsFresh(s, e) && e.now <= s.now && ViaOk(s, id, via)
    ensures Inv(c, Mint(c, s, id, via, e))
  {
    var s' := Mint(c, s, id, via, e);
    MintKeepsIssued(c, s, id, via, e);
    forall h | h in s'.sessions
      ensures SessionOk(c, s', h)
    {
      assert SessionOk(c, s, h);
    }
  }

  lemma OpenSessionKeepsInv(c: Config, s: State, id: UserId, e: Env)
    requires Inv(c, s) && e.refresh in s.issued && s.issued[e.refresh].use == Refresh && id in s.users
    requires s.issued[e.refresh].claims == ClaimsFor(id, s.users[id], e.now, c.refreshTtl) && e.now <= e.later
    ensures Inv(c, OpenSession(c, s, id, e))
  {
    var s' := OpenSession(c, s, id, e);
    forall k | k in s'.issued
      ensures JwtOk(c, s', k)
    {
      assert JwtOk(c, s, k);
    }
    forall h | h in s'.sessions
      ensures SessionOk(c, s', h)
    {
      if h != Sha256(e.refresh) {
        assert SessionOk(c, s, h);
      }
    }
  }

  /** Sessions and one-time tokens may be removed. */
  lemma RemovalKeepsInv(c: Config, s: State, s': State)
    requires Inv(c, s) && s' == s.(sessions := s'.sessions, tokens := s'.tokens)
    requires forall h :: h in s'.sessions ==> h in s.sessions && s'.sessions[h] == s.sessions[h]
    requires forall h :: h in s'.tokens ==> h in s.tokens && s'.tokens[h] == s.tokens[h]
    ensures Inv(c, s')
  {
    forall k | k in s'.issued
      ensures JwtOk(c, s', k)
    {
      assert JwtOk(c, s, k);
    }
    forall h | h in s'.sessions
      ensures SessionOk(c, s', h)
    {
      assert SessionOk(c, s, h);
    }
  }

  lemma AddTokenKeepsInv(c: Config, s: State, id: UserId, purpose: Purpose, ttl: Time, e: Env)
    requires Inv(c, s) && id in s.users && e.oneTime !in s.minted
    ensures Inv(c, AddToken(s, id, purpose, ttl, e))
  {
    var s' := AddToken(s, id, purpose, ttl, e);
    forall k | k in s'.issued
      ensures JwtOk(c, s', k)
    {
      assert JwtOk(c, s, k);
    }
    forall h | h in s'.sessions
      ensures SessionOk(c, s', h)
    {
      assert SessionOk(c, s, h);
    }
    forall k | k in s.issued
      ensures k in s.minted
    {
      assert JwtOk(c, s, k);
    }
  }

  lemma ByEmailIsUser(users: map<UserId, User>, email: string)
    ensures UserByEmail(users, email).Some? ==>
              UserByEmail(users, email).value in users && users[UserByEmail(users, email).value].email == email
  {
  }

  /** A token pair is signed and its session opened. */
  lemma SignInKeepsInv(c: Config, s: State, id: UserId, via: Via, e: Env)
    requires Inv(c, s) && id in s.users && SecretsFresh(s, e) && e.now <= s.now && e.now <= e.later
    requires ViaOk(s, id, via)
    ensures Inv(c, Mint(c, s, id, via, e))
    ensures Inv(c, OpenSession(c, Mint(c, s, id, via, e), id, e))
  {
    MintKeepsInv(c, s, id, via, e);
    OpenSessionKeepsInv(c, Mint(c, s, id, via, e), id, e);
  }

  lemma SignUpKeepsInv(c: Config, s: State, e: Env)
    requires Inv(c, s) && SecretsFresh(s, e) && e.now <= e.later <= s.now && e.userId in s.users
    requires e.oneTime !in s.minted && e.oneTime != e.access && e.oneTime != e.refresh
    ensures Inv(c, SignUp(c, s, e).0)
  {
    SignInKeepsInv(c, s, e.userId, ByRegister, e);
    var s1 := Mint(c, s, e.userId, ByRegister, e);
    AddTokenKeepsInv(c, OpenSession(c, s1, e.userId, e), e.userId, EmailVerification, VERIFICATION_TTL, e);
  }

  lemma RegisterKeepsInv(c: Config, s: State, call: Call, e: Env)
    requires Inv(c, s) && call.Register? && SecretsFresh(s, e) && e.now <= e.later <= s.now && e.userId !in s.users
    requires e.oneTime !in s.minted && e.oneTime != e.access && e.oneTime != e.refresh
    ensures Inv(c, RegisterCall(c, s, call, e).0)
  {
    if UserByEmail(s.users, call.email).None? && !UsernameTaken(s.users, call.username) && Storable(call.password) {
      var u := NewUser(call.email, call.username, call.password, call.displayName);
      AddUserKeepsInv(c, s, e.userId, u);
      SignUpKeepsInv(c, AddUser(s, e.userId, u), e);
    }
  }

  lemma LoginKeepsInv(c: Config, s: State, call: Call, e: Env)
    requires Inv(c, s) && call.Login? && SecretsFresh(s, e) && e.now <= e.later <= s.now
    ensures Inv(c, LoginCall(c, s, call, e).0)
  {
    ByEmailIsUser(s.users, call.email);
    var found := UserByEmail(s.users, call.email);
    if found.Some? {
      var id := found.value;
      assert UserOk(s.users, id);
      SignInKeepsInv(c, s, id, ByLogin, e);
      var s2 := OpenSession(c, Mint(c, s, id, ByLogin, e), id, e);
      PutUserKeepsInv(c, s2, id, s2.users[id].(lastLoginAt := Some(e.later)));
    }
  }

  lemma RefreshKeepsInv(c: Config, s: State, call: Call, e: Env)
    requires Inv(c, s) && call.RefreshTokens? && SecretsFresh(s, e) && e.now <= e.later <= s.now
    requires forall k :: k in s.issued ==> s.issued[k].stamp < s.calls
    ensures Inv(c, RefreshCall(c, s, call, e).0)
  {
    var h := Sha256(call.token);
    if call.token in s.issued && h in s.sessions {
      assert SessionOk(c, s, h);
      var s1 := if DeleteSession in e.faults then s else CloseSession(s, h);
      RemovalKeepsInv(c, s, s1);
      SignInKeepsInv(c, s1, s.issued[call.token].claims.userId, ByRefresh(call.token), e);
    }
  }

  /** A user's row is rewritten, then a one-time token and the user's sessions may go. */
  lemma PutAndRemoveKeepsInv(c: Config, s: State, id: UserId, u: User, s': State)
    requires Inv(c, s) && id in s.users && Storable(u.password.of)
    requires SameIdentity(u, s.users[id])
    requires s' == s.(users := s.users[id := u], sessions := s'.sessions, tokens := s'.tokens)
    requires forall h :: h in s'.sessions ==> h in s.sessions && s'.sessions[h] == s.sessions[h]
    requires forall h :: h in s'.tokens ==> h in s.tokens && s'.tokens[h] == s.tokens[h]
    ensures Inv(c, s')
  {
    PutUserKeepsInv(c, s, id, u);
    RemovalKeepsInv(c, PutUser(s, id, u), s');
  }

  lemma ResetKeepsInv(c: Config, s: State, call: Call, e: Env)
    requires Inv(c, s) && call.ResetPassword?
    ensures Inv(c, ResetPasswordCall(s, call, e).0)
  {
    var h := Sha256(call.token);
    if ResetPasswordCall(s, call, e).1 == Done {
      var id := s.tokens[h].userId;
      var u := s.users[id].(password := Bcrypt(call.newPassword));
      PutAndRemoveKeepsInv(c, s, id, u, ResetPasswordCall(s, call, e).0);
    }
  }

  lemma ChangeKeepsInv(c: Config, s: State, call: Call, e: Env)
    requires Inv(c, s) && call.ChangePassword?
    ensures Inv(c, ChangePasswordCall(s, call, e).0)
  {
    if ChangePasswordCall(s, call, e).1 == Done {
      var id := call.user.id;
      var u := s.users[id].(password := Bcrypt(call.newPassword));
      PutAndRemoveKeepsInv(c, s, id, u, ChangePasswordCall(s, call, e).0);
    }
  }

  lemma VerifyKeepsInv(c: Config, s: State, call: Call, e: Env)
    requires Inv(c, s) && call.VerifyEmail?
    ensures Inv(c, VerifyEmailCall(s, call, e).0)
  {
    var h := Sha256(call.token);
    if VerifyEmailCall(s, call, e).1.Verified? {
      var id := s.tokens[h].userId;
      assert UserOk(s.users, id);
      PutAndRemoveKeepsInv(c, s, id, s.users[id].(verifiedAt := Some(e.later)), VerifyEmailCall(s, call, e).0);
    }
  }

  lemma ResendKeepsInv(c: Config, s: State, call: Call, e: Env)
    requires Inv(c, s) && e.oneTime !in s.minted && call.ResendVerification?
    ensures Inv(c, ResendCall(s, call, e).0)
  {
    ByEmailIsUser(s.users, call.email);
    var found := UserByEmail(s.users, call.email);
    if found.Some? {
      AddTokenKeepsInv(c, s, found.value, EmailVerification, VERIFICATION_TTL, e);
    }
  }

  lemma RequestKeepsInv(c: Config, s: State, call: Call, e: Env)
    requires Inv(c, s) && e.oneTime !in s.minted && call.RequestPasswordReset?
    ensures Inv(c, RequestResetCall(s, call, e).0)
  {
    ByEmailIsUser(s.users, call.email);
    var found := UserByEmail(s.users, call.email);
    if found.Some? {
      AddTokenKeepsInv(c, s, found.value, PasswordReset, RESET_TTL, e);
    }
  }

  lemma CallKeepsInv(c: Config, s: State, call: Call, e: Env)
    requires Inv(c, s) && Fresh(s, e)
    ensures Inv(c, Perform(c, s, call, e).0)
  {
    StartKeepsInv(c, s, e);
    var t := Started(s, e);
    match call
    case Register(_, _, _, _) => RegisterKeepsInv(c, t, call, e);
    case Login(_, _) => LoginKeepsInv(c, t, call, e);
    case Logout(_) => RemovalKeepsInv(c, t, CloseSession(t, Sha256(call.token)));
    case RefreshTokens(_) => RefreshKeepsInv(c, t, call, e);
    case ResetPassword(_, _) => ResetKeepsInv(c, t, call, e);
    case ChangePassword(_, _, _) => ChangeKeepsInv(c, t, call, e);
    case VerifyEmail(_) => VerifyKeepsInv(c, t, call, e);
    case SetActive(_, _) =>
      if call.account in t.users {
        assert UserOk(t.users, call.account);
        PutUserKeepsInv(c, t, call.account, t.users[call.account].(active := call.active));
      }
    case RequestPasswordReset(_) => RequestKeepsInv(c, t, call, e);
    case ResendVerification(_) => ResendKeepsInv(c, t, call, e);
  }

  /** Every reachable state is whole, however many calls failed midway. */
  lemma {:induction false} RunKeepsInv(c: Config, s: State, run: seq<Event>)
    requires Inv(c, s) && ValidRun(c, s, run)
    ensures Inv(c, Exec(c, s, run))
    decreases |run|
  {
    if run != [] {
      CallKeepsInv(c, s, run[0].call, run[0].env);
      RunKeepsInv(c, Perform(c, s, run[0].call, run[0].env).0, run[1..]);
    }
  }
}
