/** The auth-callback server action: validate the session user and provision
    a user row for them on first sign-in. */
module AuthCallback {
  import opened Wrappers
  import opened Database

  /** `NoSession`: the session has no user, so reading its id throws;
      `InvalidUserData`: the id or the email is missing or empty. */
  datatype AuthError = NoSession | InvalidUserData

  datatype AuthStatus = AuthStatus(success: bool)

  predicate ValidUserData(u: SessionUser)
  {
    u.id != "" && u.email.Some? && u.email.value != ""
  }

  /** The effect of one call: the new tables and the result. */
  ghost function AuthStatusOf(t: Tables, session: Option<SessionUser>): (r: (Tables, Result<AuthStatus, AuthError>))
    ensures r.1.Err? <==> session.None? || !ValidUserData(session.value)
    ensures r.1.Ok? ==> r.1.value.success
    // a failed call changes nothing
    ensures r.1.Err? ==> r.0 == t
    // only the user table is ever written, and only by adding the session's user
    ensures r.0 == t.(userPhoneCase := r.0.userPhoneCase)
    ensures r.0.userPhoneCase.Keys <= t.userPhoneCase.Keys + (if session.Some? then {session.value.id} else {})
    ensures forall id :: id in t.userPhoneCase ==> id in r.0.userPhoneCase && r.0.userPhoneCase[id] == t.userPhoneCase[id]
  {
    if session.None? then (t, Err(NoSession))
    else if !ValidUserData(session.value) then (t, Err(InvalidUserData))
    else
      var user := session.value;
      if user.id in t.userPhoneCase then (t, Ok(AuthStatus(true)))
      else (t.(userPhoneCase := t.userPhoneCase[user.id := UserPhoneCase(user.email.value)]), Ok(AuthStatus(true)))
  }

  /** `getAuthStatus`. */
  method GetAuthStatus(db: Db, session: Option<SessionUser>) returns (r: Result<AuthStatus, AuthError>)
    requires Valid(db.State())
    modifies db
    ensures Valid(db.State())
    ensures (db.State(), r) == AuthStatusOf(old(db.State()), session)
  {
    if session.None? {
      return Err(NoSession);
    }
    var user := session.value;
    if user.id == "" || user.email.None? || user.email.value == "" {
      return Err(InvalidUserData);
    }
    var existingUser := user.id in db.userPhoneCase;
    if !existingUser {
      db.CreateUser(user.id, UserPhoneCase(user.email.value));
    }
    r := Ok(AuthStatus(true));
  }

  /** A first sign-in adds exactly the session's user, with its email. */
  lemma NewUserAdded(t: Tables, user: SessionUser)
    requires ValidUserData(user) && user.id !in t.userPhoneCase
    ensures var t' := AuthStatusOf(t, Some(user)).0;
      t'.userPhoneCase == t.userPhoneCase[user.id := UserPhoneCase(user.email.value)]
      && |t'.userPhoneCase| == |t.userPhoneCase| + 1
  {
  }

  /** A known user is left as stored, even when the session reports another email. */
  lemma KnownUserUntouched(t: Tables, user: SessionUser)
    requires user.id in t.userPhoneCase
    ensures AuthStatusOf(t, Some(user)).0 == t
  {
  }

  /** Two calls leave the store as one call does, with the same answer. */
  lemma AuthStatusIdempotent(t: Tables, session: Option<SessionUser>)
    ensures var (t1, r1) := AuthStatusOf(t, session);
      AuthStatusOf(t1, session) == (t1, r1)
  {
  }
}
