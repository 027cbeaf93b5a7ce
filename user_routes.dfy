/**
 * The user router (routes/user.js): `/auth` and `verifyAccessToken` over the users table and the
 * user access-token table. The code is the admin router's with the tables swapped; its failure
 * texts, "admin" included, are the same strings.
 */
module UserRoutes {
  import opened Common
  import opened Store
  import opened Http
  import opened Credentials

  /** POST /auth against the user table; the failure texts are the same as the admin router's. */
  method Auth(
    db: Database, res: Reply, email: string, date: Option<int>, authToken: string,
    hash: string -> string, iso: int -> string, now: int)
    modifies db`userAccessTokens, res
    ensures var t := Authenticate(old(db.users), email, date, authToken, hash, iso, now);
      && res.sent == old(res.sent) + RouteAuthReplies(t, email)
      && db.userAccessTokens == AfterAuth(old(db.userAccessTokens), email, t)
  {
    SendAuthFieldFailures(res, email, date, authToken);
    ghost var t := Authenticate(db.users, email, date, authToken, hash, iso, now);
    if email != "" && date.Some? && authToken != "" {
      assert res.sent == old(res.sent);
      var user := db.GetUser(email);
      if user.Some? {
        var verifyAuthToken := ChallengeDigest(hash, iso, Column(user.value, EmailColumn), date.value);
        if authToken == verifyAuthToken {
          var created := now;
          var ttl := AccessTokenTtl;
          var accessToken := AccessTokenValue(hash, iso, email, created, ttl);
          assert t.grant == Some(TokenRecord(accessToken, created, ttl));
          db.CreateUserAccessToken(email, accessToken, created, ttl);
          res.Send(200, AccessGrant(accessToken, ttl));
          assert res.sent == old(res.sent) + RouteAuthReplies(t, email);
        } else {
          assert t == AuthTrace([ChallengeMismatch], None);
          RouteAuthRepliesSingle(ChallengeMismatch, email);
          res.Send(401, Text("Invalid authorization token"));
          assert res.sent == old(res.sent) + RouteAuthReplies(t, email);
        }
      } else {
        assert t == AuthTrace([AccountUnknown], None);
        RouteAuthRepliesSingle(AccountUnknown, email);
        res.Send(401, Text("Could not find an admin with email '" + email + "'"));
        assert res.sent == old(res.sent) + RouteAuthReplies(t, email);
      }
    } else {
      assert t == AuthTrace(AuthFieldFailures(email, date, authToken), None);
      assert res.sent == old(res.sent) + RouteAuthReplies(t, email);
    }
  }

  /** `verifyAccessToken`: the guard of the protected user routes; `next` is whether `next()` ran. */
  method VerifyAccessToken(
    db: Database, res: Reply, email: string, accessToken: string, nowAtExpiryCheck: int, nowAtGrant: int)
    returns (next: bool)
    modifies db`userAccessTokens, res
    ensures var t := Guard(old(db.users), old(db.userAccessTokens), email, accessToken, nowAtExpiryCheck, nowAtGrant);
      && next == t.proceed
      && res.sent == old(res.sent) + RouteGuardReplies(t, email)
      && db.userAccessTokens == AfterGuard(old(db.userAccessTokens), email, t)
  {
    ghost var t := Guard(db.users, db.userAccessTokens, email, accessToken, nowAtExpiryCheck, nowAtGrant);
    SendGuardFieldFailures(res, email, accessToken);
    if email == "" || accessToken == "" {
      next := false;
      assert t == GuardTrace(GuardFieldFailures(email, accessToken), false, false);
    } else {
      assert res.sent == old(res.sent);
      next := CheckStoredToken(db, res, email, accessToken, nowAtExpiryCheck, nowAtGrant);
    }
  }

  /** The guard once both credentials are present: look up the user and its token, expire, compare. */
  method CheckStoredToken(
    db: Database, res: Reply, email: string, accessToken: string, nowAtExpiryCheck: int, nowAtGrant: int)
    returns (next: bool)
    requires email != "" && accessToken != ""
    modifies db`userAccessTokens, res
    ensures var t := Guard(old(db.users), old(db.userAccessTokens), email, accessToken, nowAtExpiryCheck, nowAtGrant);
      && next == t.proceed
      && res.sent == old(res.sent) + RouteGuardReplies(t, email)
      && db.userAccessTokens == AfterGuard(old(db.userAccessTokens), email, t)
  {
    ghost var t := Guard(db.users, db.userAccessTokens, email, accessToken, nowAtExpiryCheck, nowAtGrant);
    var user := db.GetUser(email);
    var token := db.GetUserAccessToken(email);
    ghost var unknown: seq<GuardFailure> := if user.None? then [HolderUnknown] else [];
    if user.None? {
      RouteGuardRepliesSnoc(old(res.sent), [], HolderUnknown, t.revoke, t.proceed, email);
      res.Send(401, Text("Could not find an admin with the email '" + email + "'"));
    }
    assert res.sent == old(res.sent) + RouteGuardReplies(GuardTrace(unknown, t.revoke, t.proceed), email);
    token := ExpireToken(db, email, user, token, nowAtExpiryCheck);
    assert db.userAccessTokens == AfterGuard(old(db.userAccessTokens), email, t);
    next := CompareToken(res, email, accessToken, user, token, nowAtGrant);
    if token.Some? && token.value.accessToken == accessToken {
      assert t == GuardTrace(unknown, t.revoke, next);
    } else {
      assert t == GuardTrace(unknown + [AccessTokenMismatch], t.revoke, false);
      RouteGuardRepliesSnoc(old(res.sent), unknown, AccessTokenMismatch, t.revoke, t.proceed, email);
    }
    assert res.sent == old(res.sent) + RouteGuardReplies(t, email);
  }

  /** The expiry check: the expired token of a known user is revoked and from then on treated as absent. */
  method ExpireToken(db: Database, email: string, user: Option<Row>, token: Option<TokenRecord>, now: int)
    returns (live: Option<TokenRecord>)
    modifies db`userAccessTokens
    ensures var revoke := user.Some? && token.Some? && Expired(token.value, now);
      && live == (if revoke then None else token)
      && db.userAccessTokens == (if revoke then Remove(old(db.userAccessTokens), email) else old(db.userAccessTokens))
  {
    live := token;
    if user.Some? && token.Some? && Expired(token.value, now) {
      db.RevokeUserAccessToken(email);
      live := None;
    }
  }

  /** The comparison with the live token: `next()` runs only for a known user whose token matches and is still live. */
  method CompareToken(res: Reply, email: string, accessToken: string, user: Option<Row>, live: Option<TokenRecord>, now: int)
    returns (next: bool)
    modifies res
    ensures next <==> live.Some? && live.value.accessToken == accessToken && user.Some? && !Expired(live.value, now)
    ensures live.Some? && live.value.accessToken == accessToken ==> res.sent == old(res.sent)
    ensures !(live.Some? && live.value.accessToken == accessToken) ==>
      res.sent == old(res.sent) + [Response(RouteGuardStatus(AccessTokenMismatch), Text(RouteGuardText(AccessTokenMismatch, email)))]
  {
    next := false;
    if live.Some? && live.value.accessToken == accessToken {
      if user.Some? && live.Some? && !Expired(live.value, now) {
        next := true;
      }
    } else {
      res.Send(401, Text("Invalid access token for the admin with the email '" + email + "'"));
    }
  }
}
