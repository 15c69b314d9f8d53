/**
 What a single service call can add to the tables and to the set of signed tokens, and what runs of
 calls therefore never bring back.
 */
module AuthFootprint {
  import opened AuthModel
  import opened AuthInvariant

  /** Old tokens stay as they are; a new one is stamped with the call and has a lawful origin. */
  ghost predicate JwtsGrow(s: State, s': State, e: Env) {
    && (forall k :: k in s.issued ==> k in s'.issued && s'.issued[k] == s.issued[k])
    && (forall k :: k in s'.issued && k !in s.issued ==>
          && (k == e.access || k == e.refresh)
          && s'.issued[k].stamp == s'.calls
          && Origin(s, s'.issued[k]))
  }

  /** Registration concerns a new user, a login an old one, a refresh the owner of a session row. */
  ghost predicate Origin(s: State, jwt: Jwt) {
    match jwt.via
    case ByRegister => jwt.claims.userId !in s.users
    case ByLogin => jwt.claims.userId in s.users
    case ByRefresh(p) => Sha256(p) in s.sessions && p in s.issued && s.issued[p].claims.userId == jwt.claims.userId
  }

  /** Rows are kept or removed; a new session row belongs to the token just signed. */
  ghost predicate RowsShrink(s: State, s': State, e: Env) {
    && (forall h :: h in s'.sessions ==>
          || (h in s.sessions && s'.sessions[h] == s.sessions[h])
          || (h == Sha256(e.refresh) && e.refresh in s'.issued
                && s'.issued[e.refresh].claims.userId == s'.sessions[h].userId))
    && (forall h :: h in s'.tokens ==> (h in s.tokens && s'.tokens[h] == s.tokens[h]) || h == Sha256(e.oneTime))
  }

  /** Users stay, keep their email, and never lose a verification. */
  ghost predicate UsersStay(s: State, s': State) {
    forall id :: id in s.users ==>
      && id in s'.users && s'.users[id].email == s.users[id].email
      && (s.users[id].verifiedAt.Some? ==> s'.users[id].verifiedAt.Some?)
  }

  ghost predicate Footprint(s: State, s': State, e: Env) {
    && s'.calls == s.calls + 1 && s'.now == e.later && s.minted <= s'.minted
    && JwtsGrow(s, s', e) && RowsShrink(s, s', e) && UsersStay(s, s')
  }

  /** The tokens of a fresh pair are new. */
  lemma FreshIsUnissued(c: Config, s: State, e: Env)
    requires IssuedOk(c, s) && Fresh(s, e)
    ensures e.access !in s.issued && e.refresh !in s.issued
  {
    forall k | k in s.issued
      ensures k in s.minted
    {
      assert JwtOk(c, s, k);
    }
  }

  lemma SigningAdvances(c: Config, s: State, call: Call, e: Env)
    requires call.Register? || call.Login? || call.RefreshTokens?
    ensures var s' := Perform(c, s, call, e).0;
            s'.calls == s.calls + 1 && s'.now == e.later && s.minted <= s'.minted
  {
  }

  /** The clock, the call count and the minted strings. */
  lemma CallAdvances(c: Config, s: State, call: Call, e: Env)
    ensures var s' := Perform(c, s, call, e).0;
            s'.calls == s.calls + 1 && s'.now == e.later && s.minted <= s'.minted
  {
    if call.Register? || call.Login? || call.RefreshTokens? {
      SigningAdvances(c, s, call, e);
    }
  }

  lemma MintGrows(c: Config, s: State, t: State, id: UserId, via: Via, e: Env)
    requires t.issued == s.issued && t.calls == s.calls + 1 && id in t.users
    requires e.access !in s.issued && e.refresh !in s.issued && e.access != e.refresh
    requires match via
             case ByRegister => id !in s.users
             case ByLogin => id in s.users
             case ByRefresh(p) => Sha256(p) in s.sessions && p in s.issued && s.issued[p].claims.userId == id
    ensures JwtsGrow(s, Mint(c, t, id, via, e), e)
  {
  }

  lemma SignUpJwts(c: Config, s: State, t: State, e: Env)
    requires e.access !in s.issued && e.refresh !in s.issued && e.access != e.refresh
    requires e.userId in t.users && t.issued == s.issued && t.calls == s.calls + 1 && e.userId !in s.users
    ensures JwtsGrow(s, SignUp(c, t, e).0, e)
  {
    MintGrows(c, s, t, e.userId, ByRegister, e);
  }

  lemma SignInJwts(c: Config, s: State, t: State, id: UserId, e: Env)
    requires e.access !in s.issued && e.refresh !in s.issued && e.access != e.refresh
    requires id in t.users && t.issued == s.issued && t.calls == s.calls + 1 && id in s.users
    ensures JwtsGrow(s, SignIn(c, t, id, e).0, e)
  {
    MintGrows(c, s, t, id, ByLogin, e);
  }

  lemma RotateJwts(c: Config, s: State, t: State, token: Secret, id: UserId, e: Env)
    requires e.access !in s.issued && e.refresh !in s.issued && e.access != e.refresh
    requires id in t.users && t.issued == s.issued && t.calls == s.calls + 1
    requires Sha256(token) in s.sessions && token in s.issued && s.issued[token].claims.userId == id
    ensures JwtsGrow(s, Rotate(c, t, token, id, e).0, e)
  {
    var t1 := if DeleteSession in e.faults then t else CloseSession(t, Sha256(token));
    MintGrows(c, s, t1, id, ByRefresh(token), e);
  }

  lemma CallJwts(c: Config, s: State, call: Call, e: Env)
    requires Fresh(s, e) && e.access !in s.issued && e.refresh !in s.issued
    ensures JwtsGrow(s, Perform(c, s, call, e).0, e)
  {
    var t := Started(s, e);
    match call
    case Register(email, username, password, displayName) =>
      SignUpJwts(c, s, AddUser(t, e.userId, NewUser(email, username, password, displayName)), e);
    case Login(email, _) =>
      ByEmailIsUser(t.users, email);
      if UserByEmail(t.users, email).Some? {
        SignInJwts(c, s, t, UserByEmail(t.users, email).value, e);
      }
    case RefreshTokens(token) =>
      if token in t.issued && t.issued[token].claims.userId in t.users && Sha256(token) in t.sessions {
        RotateJwts(c, s, t, token, t.issued[token].claims.userId, e);
      }
    case _ => OtherJwts(c, s, call, e);
  }

  lemma OtherJwts(c: Config, s: State, call: Call, e: Env)
    requires !call.Register? && !call.Login? && !call.RefreshTokens?
    ensures Perform(c, s, call, e).0.issued == s.issued
  {
  }

  /** Signing up, signing in and rotating add the row of the token just signed. */
  lemma SignUpRows(c: Config, s: State, t: State, e: Env)
    requires Fresh(s, e) && e.userId in t.users && t.sessions == s.sessions && t.tokens == s.tokens
    ensures RowsShrink(s, SignUp(c, t, e).0, e)
  {
  }

  lemma SignInRows(c: Config, s: State, t: State, id: UserId, e: Env)
    requires Fresh(s, e) && id in t.users && t.sessions == s.sessions && t.tokens == s.tokens
    ensures RowsShrink(s, SignIn(c, t, id, e).0, e)
  {
  }

  lemma RotateRows(c: Config, s: State, t: State, token: Secret, id: UserId, e: Env)
    requires Fresh(s, e) && id in t.users && t.sessions == s.sessions && t.tokens == s.tokens
    ensures RowsShrink(s, Rotate(c, t, token, id, e).0, e)
  {
  }

  lemma ResetRows(c: Config, s: State, call: Call, e: Env)
    requires call.ResetPassword?
    ensures RowsShrink(s, Perform(c, s, call, e).0, e)
  {
  }

  lemma ChangeRows(c: Config, s: State, call: Call, e: Env)
    requires call.ChangePassword?
    ensures RowsShrink(s, Perform(c, s, call, e).0, e)
  {
  }

  lemma OtherRows(c: Config, s: State, call: Call, e: Env)
    requires !call.Register? && !call.Login? && !call.RefreshTokens? && !call.ResetPassword? && !call.ChangePassword?
    ensures RowsShrink(s, Perform(c, s, call, e).0, e)
  {
  }

  lemma CallRows(c: Config, s: State, call: Call, e: Env)
    requires Fresh(s, e)
    ensures RowsShrink(s, Perform(c, s, call, e).0, e)
  {
    var t := Started(s, e);
    match call
    case Register(email, username, password, displayName) =>
      SignUpRows(c, s, AddUser(t, e.userId, NewUser(email, username, password, displayName)), e);
    case Login(email, _) =>
      ByEmailIsUser(t.users, email);
      if UserByEmail(t.users, email).Some? {
        SignInRows(c, s, t, UserByEmail(t.users, email).value, e);
      }
    case RefreshTokens(token) =>
      if token in t.issued && t.issued[token].claims.userId in t.users {
        RotateRows(c, s, t, token, t.issued[token].claims.userId, e);
      }
    case ResetPassword(_, _) => ResetRows(c, s, call, e);
    case ChangePassword(_, _, _) => ChangeRows(c, s, call, e);
    case _ => OtherRows(c, s, call, e);
  }

  /** One row of the users table is written. */
  ghost predicate OneUserWritten(s: State, s': State, id: UserId) {
    && id in s'.users && s'.users == s.users[id := s'.users[id]]
    && (id in s.users ==>
          && s'.users[id].email == s.users[id].email
          && (s.users[id].verifiedAt.Some? ==> s'.users[id].verifiedAt.Some?))
  }

  /** Which row of the users table a call writes, if it writes one. */
  ghost function Writes(s: State, call: Call, e: Env): UserId {
    match call
    case Register(_, _, _, _) => e.userId
    case Login(email, _) => if UserByEmail(s.users, email).Some? then UserByEmail(s.users, email).value else 0
    case ResetPassword(token, _) => if Sha256(token) in s.tokens then s.tokens[Sha256(token)].userId else 0
    case VerifyEmail(token) => if Sha256(token) in s.tokens then s.tokens[Sha256(token)].userId else 0
    case ChangePassword(user, _, _) => if user.Id? then user.id else 0
    case SetActive(account, _) => account
    case _ => 0
  }

  lemma RegisterWritesUser(c: Config, s: State, call: Call, e: Env)
    requires Fresh(s, e) && call.Register?
    ensures Perform(c, s, call, e).0.users == s.users || OneUserWritten(s, Perform(c, s, call, e).0, Writes(s, call, e))
  {
  }

  lemma LoginWritesUser(c: Config, s: State, call: Call, e: Env)
    requires call.Login?
    ensures Perform(c, s, call, e).0.users == s.users || OneUserWritten(s, Perform(c, s, call, e).0, Writes(s, call, e))
  {
  }

  lemma TokenWritesUser(c: Config, s: State, call: Call, e: Env)
    requires call.ResetPassword? || call.VerifyEmail?
    ensures Perform(c, s, call, e).0.users == s.users || OneUserWritten(s, Perform(c, s, call, e).0, Writes(s, call, e))
  {
  }

  lemma OtherWritesUser(c: Config, s: State, call: Call, e: Env)
    requires !call.Register? && !call.Login? && !call.ResetPassword? && !call.VerifyEmail?
    ensures Perform(c, s, call, e).0.users == s.users || OneUserWritten(s, Perform(c, s, call, e).0, Writes(s, call, e))
  {
  }

  lemma CallUsers(c: Config, s: State, call: Call, e: Env)
    requires Fresh(s, e)
    ensures UsersStay(s, Perform(c, s, call, e).0)
  {
    if call.Register? {
      RegisterWritesUser(c, s, call, e);
    } else if call.Login? {
      LoginWritesUser(c, s, call, e);
    } else if call.ResetPassword? || call.VerifyEmail? {
      TokenWritesUser(c, s, call, e);
    } else {
      OtherWritesUser(c, s, call, e);
    }
  }

  lemma CallFootprint(c: Config, s: State, call: Call, e: Env)
    requires IssuedOk(c, s) && Fresh(s, e)
    ensures Footprint(s, Perform(c, s, call, e).0, e)
  {
    FreshIsUnissued(c, s, e);
    CallAdvances(c, s, call, e);
    CallJwts(c, s, call, e);
    CallRows(c, s, call, e);
    CallUsers(c, s, call, e);
  }
}
