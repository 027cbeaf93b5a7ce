/**
 * The admin router (routes/admin.js): `/auth` and the `verifyAccessToken` guard over the admin
 * tables, with the credentials of a protected request nested under `body.credentials`, and the
 * protected routes `/users`, `/user/:email` and `/new-user`.
 *
 * Each handler sends its responses one after another, as the source does; a handler that sends
 * several 400s in a row is modelled with all of them in the reply's log.
 */
module AdminRoutes {
  import opened Common
  import opened Store
  import opened Http
  import opened Credentials

  /** POST /auth against the admin table. */
  method Auth(
    db: Database, res: Reply, email: string, date: Option<int>, authToken: string,
    hash: string -> string, iso: int -> string, now: int)
    modifies db`adminAccessTokens, res
    ensures var t := Authenticate(old(db.admins), email, date, authToken, hash, iso, now);
      && res.sent == old(res.sent) + RouteAuthReplies(t, email)
      && db.adminAccessTokens == AfterAuth(old(db.adminAccessTokens), email, t)
  {
    SendAuthFieldFailures(res, email, date, authToken);
    ghost var t := Authenticate(db.admins, email, date, authToken, hash, iso, now);
    if email != "" && date.Some? && authToken != "" {
      assert res.sent == old(res.sent);
      var admin := db.GetAdmin(email);
      if admin.Some? {
        var verifyAuthToken := ChallengeDigest(hash, iso, Column(admin.value, EmailColumn), date.value);
        if authToken == verifyAuthToken {
          var created := now;
          var ttl := AccessTokenTtl;
          var accessToken := AccessTokenValue(hash, iso, email, created, ttl);
          assert t.grant == Some(TokenRecord(accessToken, created, ttl));
          db.CreateAdminAccessToken(email, accessToken, created, ttl);
          res.Send(200, AccessGrant(accessToken, ttl));
          assert res.sent == old(res.sent) + RouteAuthReplies(t, email);
        } else {
          assert t == AuthTrace([ChallengeMismatch], None);
          RouteAuthRepliesSingle(ChallengeMismatch, email);
          res.Send(401, Text("Invalid authorization token"));
          assert res.sent == old(res.sent) + RouteAuthReplies(t, email);
        }
      } else {
        assert t == AuthTrace([AccountUnknown], None);
        RouteAuthRepliesSingle(AccountUnknown, email);
        res.Send(401, Text("Could not find an admin with email '" + email + "'"));
        assert res.sent == old(res.sent) + RouteAuthReplies(t, email);
      }
    } else {
      assert t == AuthTrace(AuthFieldFailures(email, date, authToken), None);
      assert res.sent == old(res.sent) + RouteAuthReplies(t, email);
    }
  }

  /** `verifyAccessToken`: the guard of every protected admin route; `next` is whether `next()` ran. */
  method VerifyAccessToken(
    db: Database, res: Reply, email: string, accessToken: string, nowAtExpiryCheck: int, nowAtGrant: int)
    returns (next: bool)
    modifies db`adminAccessTokens, res
    ensures var t := Guard(old(db.admins), old(db.adminAccessTokens), email, accessToken, nowAtExpiryCheck, nowAtGrant);
      && next == t.proceed
      && res.sent == old(res.sent) + RouteGuardReplies(t, email)
      && db.adminAccessTokens == AfterGuard(old(db.adminAccessTokens), email, t)
  {
    ghost var t := Guard(db.admins, db.adminAccessTokens, email, accessToken, nowAtExpiryCheck, nowAtGrant);
    SendGuardFieldFailures(res, email, accessToken);
    if email == "" || accessToken == "" {
      next := false;
      assert t == GuardTrace(GuardFieldFailures(email, accessToken), false, false);
    } else {
      assert res.sent == old(res.sent);
      next := CheckStoredToken(db, res, email, accessToken, nowAtExpiryCheck, nowAtGrant);
    }
  }

  /** The guard once both credentials are present: look up the admin and its token, expire, compare. */
  method CheckStoredToken(
    db: Database, res: Reply, email: string, accessToken: string, nowAtExpiryCheck: int, nowAtGrant: int)
    returns (next: bool)
    requires email != "" && accessToken != ""
    modifies db`adminAccessTokens, res
    ensures var t := Guard(old(db.admins), old(db.adminAccessTokens), email, accessToken, nowAtExpiryCheck, nowAtGrant);
      && next == t.proceed
      && res.sent == old(res.sent) + RouteGuardReplies(t, email)
      && db.adminAccessTokens == AfterGuard(old(db.adminAccessTokens), email, t)
  {
    ghost var t := Guard(db.admins, db.adminAccessTokens, email, accessToken, nowAtExpiryCheck, nowAtGrant);
    var admin := db.GetAdmin(email);
    var token := db.GetAdminAccessToken(email);
    ghost var unknown: seq<GuardFailure> := if admin.None? then [HolderUnknown] else [];
    if admin.None? {
      RouteGuardRepliesSnoc(old(res.sent), [], HolderUnknown, t.revoke, t.proceed, email);
      res.Send(401, Text("Could not find an admin with the email '" + email + "'"));
    }
    assert res.sent == old(res.sent) + RouteGuardReplies(GuardTrace(unknown, t.revoke, t.proceed), email);
    token := ExpireToken(db, email, admin, token, nowAtExpiryCheck);
    assert db.adminAccessTokens == AfterGuard(old(db.adminAccessTokens), email, t);
    next := CompareToken(res, email, accessToken, admin, token, nowAtGrant);
    if token.Some? && token.value.accessToken == accessToken {
      assert t == GuardTrace(unknown, t.revoke, next);
    } else {
      assert t == GuardTrace(unknown + [AccessTokenMismatch], t.revoke, false);
      RouteGuardRepliesSnoc(old(res.sent), unknown, AccessTokenMismatch, t.revoke, t.proceed, email);
    }
    assert res.sent == old(res.sent) + RouteGuardReplies(t, email);
  }

  /** The expiry check: the expired token of a known admin is revoked and from then on treated as absent. */
  method ExpireToken(db: Database, email: string, admin: Option<Row>, token: Option<TokenRecord>, now: int)
    returns (live: Option<TokenRecord>)
    modifies db`adminAccessTokens
    ensures var revoke := admin.Some? && token.Some? && Expired(token.value, now);
      && live == (if revoke then None else token)
      && db.adminAccessTokens == (if revoke then Remove(old(db.adminAccessTokens), email) else old(db.adminAccessTokens))
  {
    live := token;
    if admin.Some? && token.Some? && Expired(token.value, now) {
      db.RevokeAdminAccessToken(email);
      live := None;
    }
  }

  /** The comparison with the live token: `next()` runs only for a known admin whose token matches and is still live. */
  method CompareToken(res: Reply, email: string, accessToken: string, admin: Option<Row>, live: Option<TokenRecord>, now: int)
    returns (next: bool)
    modifies res
    ensures next <==> live.Some? && live.value.accessToken == accessToken && admin.Some? && !Expired(live.value, now)
    ensures live.Some? && live.value.accessToken == accessToken ==> res.sent == old(res.sent)
    ensures !(live.Some? && live.value.accessToken == accessToken) ==>
      res.sent == old(res.sent) + [Response(RouteGuardStatus(AccessTokenMismatch), Text(RouteGuardText(AccessTokenMismatch, email)))]
  {
    next := false;
    if live.Some? && live.value.accessToken == accessToken {
      if admin.Some? && live.Some? && !Expired(live.value, now) {
        next := true;
      }
    } else {
      res.Send(401, Text("Invalid access token for the admin with the email '" + email + "'"));
    }
  }

  /** GET /users (behind the guard): every user row, each without its password column. */
  method Users(db: Database, res: Reply) returns (ghost listed: seq<Row>, ghost order: seq<string>)
    modifies res
    ensures Listing(db.users, listed, order)
    ensures res.sent == old(res.sent) + [Response(200, Rows(StripPasswords(listed)))]
  {
    var rows;
    rows, order := db.GetUsers();
    listed := rows;
    var users := StripPasswords(rows);
    res.Send(200, Rows(users));
  }

  /** GET /user/:email (behind the guard): the user's row without its password, or a 404. */
  method UserByEmail(db: Database, res: Reply, email: string)
    modifies res
    ensures email in db.users ==>
      res.sent == old(res.sent) + [Response(200, Record(WithoutPassword(db.users[email])))]
    ensures email !in db.users ==>
      res.sent == old(res.sent) + [Response(404, Text("There is no user with the email '" + email + "'"))]
  {
    var user := db.GetUser(email);
    if user.Some? {
      res.Send(200, Record(WithoutPassword(user.value)));
    } else {
      res.Send(404, Text("There is no user with the email '" + email + "'"));
    }
  }

  // ---------------------------------------------------------------------------
  // POST /new-user

  const RegistrationTokenLength: nat := 16

  /** A character code `(Math.random() < 0.5 ? 65 : 97) + Math.floor(Math.random() * 26)` can take. */
  predicate IsLetterCode(code: int)
  {
    65 <= code <= 90 || 97 <= code <= 122
  }

  predicate IsRegistrationToken(token: string)
  {
    |token| == RegistrationTokenLength && forall i :: 0 <= i < |token| ==> IsLetterCode(token[i] as int)
  }

  /** Each draw is an upper-case base (65) or a lower-case base (97) plus an offset below 26. */
  function LetterCode(upperCase: bool, offset: nat): (code: int)
    requires offset < 26
    ensures IsLetterCode(code)
  {
    (if upperCase then 65 else 97) + offset
  }

  /** Every one of the 52 letters can be drawn. */
  lemma EveryLetterDrawable(code: int)
    requires IsLetterCode(code)
    ensures exists upperCase: bool, offset: nat :: offset < 26 && LetterCode(upperCase, offset) == code
  {
    if code <= 90 {
      assert LetterCode(true, (code - 65) as nat) == code;
    } else {
      assert LetterCode(false, (code - 97) as nat) == code;
    }
  }

  /** `String.fromCharCode(...codes)` for codes in the Basic Multilingual Plane outside the surrogates. */
  function FromCharCodes(codes: seq<int>): (s: string)
    requires forall i :: 0 <= i < |codes| ==> 0 <= codes[i] < 0xD800
    ensures |s| == |codes|
    ensures forall i :: 0 <= i < |s| ==> s[i] as int == codes[i]
  {
    if codes == [] then [] else [codes[0] as char] + FromCharCodes(codes[1..])
  }

  /** The 16-letter registration token; each `Math.random()` draw is a nondeterministic choice. */
  method GenerateRegistrationToken() returns (token: string)
    ensures IsRegistrationToken(token)
  {
    var ascii: seq<int> := [];
    for i := 0 to RegistrationTokenLength
      invariant |ascii| == i
      invariant forall j :: 0 <= j < i ==> IsLetterCode(ascii[j])
    {
      var upperCase: bool :| true;
      var offset: nat :| offset < 26;
      ascii := ascii + [LetterCode(upperCase, offset)];
    }
    token := FromCharCodes(ascii);
  }

  /**
   * The 400 message `/new-user` sends, or `None` when a token is issued. The target e-mail must be
   * present, pass `isEmail` (the `email-validator` package) and not already belong to a user whose
   * stored e-mail equals it.
   */
  function RegistrationRefusal(users: map<string, Row>, userEmail: string, isEmail: string -> bool): (r: Option<string>)
    ensures r.None? <==>
      && userEmail != "" && isEmail(userEmail)
      && (userEmail !in users || Column(users[userEmail], EmailColumn) != userEmail)
    ensures userEmail == "" ==> r == Some("No user email provided")
    ensures userEmail != "" && !isEmail(userEmail) ==>
      r == Some("The email '" + userEmail + "' is not a valid email address")
    ensures userEmail != "" && isEmail(userEmail) && r.Some? ==>
      r == Some("There is already a user with the email '" + userEmail + "'")
  {
    if userEmail == "" then Some("No user email provided")
    else if !isEmail(userEmail) then Some("The email '" + userEmail + "' is not a valid email address")
    else match Lookup(users, userEmail)
      case Some(user) =>
        if Column(user, EmailColumn) == userEmail then
          Some("There is already a user with the email '" + userEmail + "'")
        else
          None
      case None => None
  }

  /** POST /new-user (behind the guard): issue and store a registration token, or refuse with a 400. */
  method NewUser(db: Database, res: Reply, userEmail: string, isEmail: string -> bool, now: int)
    returns (issued: Option<string>)
    modifies db`registrationTokens, res
    ensures var refusal := RegistrationRefusal(db.users, userEmail, isEmail);
      && (issued.Some? <==> refusal.None?)
      && (refusal.Some? ==>
            && res.sent == old(res.sent) + [Response(400, Text(refusal.value))]
            && db.registrationTokens == old(db.registrationTokens))
      && (issued.Some? ==>
            && IsRegistrationToken(issued.value)
            && res.sent == old(res.sent) + [Response(200, RegistrationGrant(issued.value, RegistrationTokenTtl))]
            && db.registrationTokens ==
                 Upsert(old(db.registrationTokens), userEmail, TokenRecord(issued.value, now, RegistrationTokenTtl)))
  {
    var validEmail := false;
    var user: Option<Row> := None;
    if userEmail == "" {
      res.Send(400, Text("No user email provided"));
    } else if !isEmail(userEmail) {
      res.Send(400, Text("The email '" + userEmail + "' is not a valid email address"));
    } else {
      validEmail := true;
      user := db.GetUser(userEmail);
      if user.Some? && Column(user.value, EmailColumn) == userEmail {
        res.Send(400, Text("There is already a user with the email '" + userEmail + "'"));
      }
    }
    issued := None;
    if userEmail != "" && validEmail && (user.None? || Column(user.value, EmailColumn) != userEmail) {
      var token := GenerateRegistrationToken();
      var created := now;
      db.CreateUserRegistrationToken(userEmail, token, created, RegistrationTokenTtl);
      res.Send(200, RegistrationGrant(token, RegistrationTokenTtl));
      issued := Some(token);
    }
  }

  // ---------------------------------------------------------------------------
  // The protected routes: the guard runs first, the route's body only after `next()`

  method UsersRoute(
    db: Database, res: Reply, email: string, accessToken: string, nowAtExpiryCheck: int, nowAtGrant: int)
    returns (admitted: bool, ghost listed: seq<Row>, ghost order: seq<string>)
    modifies db`adminAccessTokens, res
    ensures var t := Guard(old(db.admins), old(db.adminAccessTokens), email, accessToken, nowAtExpiryCheck, nowAtGrant);
      && admitted == t.proceed
      && db.adminAccessTokens == AfterGuard(old(db.adminAccessTokens), email, t)
      && (!admitted ==> res.sent == old(res.sent) + RouteGuardReplies(t, email))
      && (admitted ==> Listing(db.users, listed, order)
                       && res.sent == old(res.sent) + [Response(200, Rows(StripPasswords(listed)))])
  {
    admitted := VerifyAccessToken(db, res, email, accessToken, nowAtExpiryCheck, nowAtGrant);
    listed, order := [], [];
    if admitted {
      assert res.sent == old(res.sent);
      listed, order := Users(db, res);
    }
  }

  method UserByEmailRoute(
    db: Database, res: Reply, email: string, accessToken: string, nowAtExpiryCheck: int, nowAtGrant: int,
    target: string)
    returns (admitted: bool)
    modifies db`adminAccessTokens, res
    ensures var t := Guard(old(db.admins), old(db.adminAccessTokens), email, accessToken, nowAtExpiryCheck, nowAtGrant);
      && admitted == t.proceed
      && db.adminAccessTokens == AfterGuard(old(db.adminAccessTokens), email, t)
      && (!admitted ==> res.sent == old(res.sent) + RouteGuardReplies(t, email))
      && (admitted && target in old(db.users) ==>
            res.sent == old(res.sent) + [Response(200, Record(WithoutPassword(old(db.users)[target])))])
      && (admitted && target !in old(db.users) ==>
            res.sent == old(res.sent) + [Response(404, Text("There is no user with the email '" + target + "'"))])
  {
    admitted := VerifyAccessToken(db, res, email, accessToken, nowAtExpiryCheck, nowAtGrant);
    if admitted {
      assert res.sent == old(res.sent);
      UserByEmail(db, res, target);
    }
  }

  /** No registration token is written unless the caller passed the guard. */
  method NewUserRoute(
    db: Database, res: Reply, email: string, accessToken: string, nowAtExpiryCheck: int, nowAtGrant: int,
    userEmail: string, isEmail: string -> bool, now: int)
    returns (issued: Option<string>)
    modifies db`adminAccessTokens, db`registrationTokens, res
    ensures var t := Guard(old(db.admins), old(db.adminAccessTokens), email, accessToken, nowAtExpiryCheck, nowAtGrant);
      var refusal := RegistrationRefusal(old(db.users), userEmail, isEmail);
      && db.adminAccessTokens == AfterGuard(old(db.adminAccessTokens), email, t)
      && (!t.proceed ==> issued.None? && db.registrationTokens == old(db.registrationTokens)
                         && res.sent == old(res.sent) + RouteGuardReplies(t, email))
      && (issued.Some? <==> t.proceed && refusal.None?)
      && (t.proceed && refusal.Some? ==>
            && res.sent == old(res.sent) + [Response(400, Text(refusal.value))]
            && db.registrationTokens == old(db.registrationTokens))
      && (issued.Some? ==>
            && IsRegistrationToken(issued.value)
            && res.sent == old(res.sent) + [Response(200, RegistrationGrant(issued.value, RegistrationTokenTtl))]
            && db.registrationTokens ==
                 Upsert(old(db.registrationTokens), userEmail, TokenRecord(issued.value, now, RegistrationTokenTtl)))
  {
    var admitted := VerifyAccessToken(db, res, email, accessToken, nowAtExpiryCheck, nowAtGrant);
    issued := None;
    if admitted {
      assert res.sent == old(res.sent);
      issued := NewUser(db, res, userEmail, isEmail, now);
    }
  }
}
