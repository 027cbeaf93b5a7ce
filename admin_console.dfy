/**
 * The first admin router (admin/admin.js). Unlike the routes in routes/, its handlers collect
 * their failures in an `errors` list and report them through one reporter, which sends a single
 * 400 carrying every message, unless its `stop` flag has been raised. The guard raises that flag
 * just before it calls `next()`, so a request it lets through gets no 400 from it.
 */
module AdminConsole {
  import opened Common
  import opened Store
  import opened Http
  import opened Credentials
  import AdminRoutes

  /** `_error(res)`: the reporter closure and its `stop` property. */
  class ErrorReporter {
    const res: Reply
    var stop: bool

    constructor(res: Reply)
      ensures this.res == res && !stop
    {
      this.res := res;
      stop := false;
    }

    /** `error(...messages)`: one 400 carrying every message, unless stopped. */
    method Report(messages: seq<string>)
      modifies res
      ensures stop ==> res.sent == old(res.sent)
      ensures !stop ==> res.sent == old(res.sent) + [Response(400, Messages(messages))]
    {
      if !stop {
        res.Send(400, Messages(messages));
      }
    }
  }

  /** What `/auth` in admin/admin.js sends: the grant, or one 400 listing every failure in order. */
  function ConsoleAuthReplies(t: AuthTrace, email: string): (rs: seq<Response>)
    ensures |rs| == 1
    ensures rs[0].status == 200 <==> t.grant.Some?
    ensures t.grant.Some? ==> rs[0].body == AccessGrant(t.grant.value.accessToken, t.grant.value.ttl)
    ensures t.grant.None? ==> rs[0] == Response(400, Messages(AuthTexts(t.failures, email)))
  {
    if t.grant.Some? then
      [Response(200, AccessGrant(t.grant.value.accessToken, t.grant.value.ttl))]
    else
      [Response(400, Messages(AuthTexts(t.failures, email)))]
  }

  function ConsoleGuardText(f: GuardFailure, email: string): string
  {
    match f
    case CredentialEmailMissing => "No email provided"
    case AccessTokenMissing => "No access token provided"
    case HolderUnknown => "Could not find an admin with the email '" + email + "'"
    case AccessTokenMismatch => "Incorrect access token for the admin with the email '" + email + "'"
  }

  function ConsoleGuardTexts(fs: seq<GuardFailure>, email: string): (texts: seq<string>)
    ensures |texts| == |fs|
    ensures forall i :: 0 <= i < |fs| ==> texts[i] == ConsoleGuardText(fs[i], email)
  {
    if fs == [] then [] else [ConsoleGuardText(fs[0], email)] + ConsoleGuardTexts(fs[1..], email)
  }

  /**
   * What the guard in admin/admin.js sends: nothing once it has let the request through,
   * otherwise one 400 listing its failures (an empty list when none was recorded).
   */
  function ConsoleGuardReplies(t: GuardTrace, email: string): (rs: seq<Response>)
    ensures rs == [] <==> t.proceed
    ensures !t.proceed ==> rs == [Response(400, Messages(ConsoleGuardTexts(t.failures, email)))]
  {
    if t.proceed then [] else [Response(400, Messages(ConsoleGuardTexts(t.failures, email)))]
  }

  /** The field checks of `/auth` in admin/admin.js, pushing one message per missing field. */
  method AuthFieldErrors(email: string, date: Option<int>, authToken: string) returns (errors: seq<string>)
    ensures errors == AuthTexts(AuthFieldFailures(email, date, authToken), email)
  {
    errors := [];
    ghost var fs: seq<AuthFailure> := [];
    if email == "" {
      AuthTextsSnoc(fs, EmailMissing, email);
      errors, fs := errors + ["No email provided"], fs + [EmailMissing];
    }
    // `new Date(req.body?.date)` is always an object, so "No date provided" is never pushed.
    if date.None? {
      AuthTextsSnoc(fs, DateInvalid, email);
      errors, fs := errors + ["Invalid date format"], fs + [DateInvalid];
    }
    if authToken == "" {
      AuthTextsSnoc(fs, AuthTokenMissing, email);
      errors, fs := errors + ["No authorization token provided"], fs + [AuthTokenMissing];
    }
    assert fs == AuthFieldFailures(email, date, authToken);
  }

  /** POST /auth against the admin table, reporting through the collected `errors`. */
  method Auth(
    db: Database, res: Reply, email: string, date: Option<int>, authToken: string,
    hash: string -> string, iso: int -> string, now: int)
    modifies db`adminAccessTokens, res
    ensures var t := Authenticate(old(db.admins), email, date, authToken, hash, iso, now);
      && res.sent == old(res.sent) + ConsoleAuthReplies(t, email)
      && db.adminAccessTokens == AfterAuth(old(db.adminAccessTokens), email, t)
  {
    var error := new ErrorReporter(res);
    ghost var t := Authenticate(db.admins, email, date, authToken, hash, iso, now);
    var errors := AuthFieldErrors(email, date, authToken);
    if email != "" && date.Some? && authToken != "" {
      var admin := db.GetAdmin(email);
      if admin.Some? {
        var verifyAuthToken := ChallengeDigest(hash, iso, Column(admin.value, EmailColumn), date.value);
        if authToken == verifyAuthToken {
          var created := now;
          var ttl := AccessTokenTtl;
          var accessToken := AccessTokenValue(hash, iso, email, created, ttl);
          db.CreateAdminAccessToken(email, accessToken, created, ttl);
          res.Send(200, AccessGrant(accessToken, ttl));
        } else {
          assert t.failures == [ChallengeMismatch];
          assert AuthTexts(t.failures, email) == ["Invalid authorization token"];
          error.Report(["Invalid authorization token"]);
        }
      } else {
        assert t.failures == [AccountUnknown];
        assert AuthTexts(t.failures, email) == ["Could not find an admin with email '" + email + "'"];
        error.Report(["Could not find an admin with email '" + email + "'"]);
      }
    } else {
      assert t.failures == AuthFieldFailures(email, date, authToken);
      error.Report(errors);
    }
  }

  /** The credential checks of the guard in admin/admin.js, pushing one message per missing credential. */
  method GuardFieldErrors(email: string, accessToken: string) returns (errors: seq<string>)
    ensures errors == ConsoleGuardTexts(GuardFieldFailures(email, accessToken), email)
  {
    errors := [];
    if email == "" {
      errors := errors + ["No email provided"];
    }
    if accessToken == "" {
      errors := errors + ["No access token provided"];
    }
  }

  /**
   * The guard of admin/admin.js once both credentials are present: the messages it pushes, and
   * whether it raised the reporter's `stop` flag and called `next()`.
   */
  method CheckStoredToken(
    db: Database, error: ErrorReporter, email: string, accessToken: string, nowAtExpiryCheck: int, nowAtGrant: int)
    returns (errors: seq<string>, next: bool)
    requires email != "" && accessToken != ""
    requires !error.stop
    modifies db`adminAccessTokens, error`stop
    ensures var t := Guard(old(db.admins), old(db.adminAccessTokens), email, accessToken, nowAtExpiryCheck, nowAtGrant);
      && next == t.proceed
      && error.stop == next
      && errors == ConsoleGuardTexts(t.failures, email)
      && db.adminAccessTokens == AfterGuard(old(db.adminAccessTokens), email, t)
  {
    ghost var t := Guard(db.admins, db.adminAccessTokens, email, accessToken, nowAtExpiryCheck, nowAtGrant);
    var admin := db.GetAdmin(email);
    var token := db.GetAdminAccessToken(email);
    errors := [];
    if admin.None? {
      errors := errors + ["Could not find an admin with the email '" + email + "'"];
    }
    token := AdminRoutes.ExpireToken(db, email, admin, token, nowAtExpiryCheck);
    assert db.adminAccessTokens == AfterGuard(old(db.adminAccessTokens), email, t);
    next := false;
    if token.Some? && token.value.accessToken == accessToken {
      if admin.Some? && token.Some? && !Expired(token.value, nowAtGrant) {
        error.stop := true;
        next := true;
      }
      assert t.failures == if admin.None? then [HolderUnknown] else [];
    } else {
      errors := errors + ["Incorrect access token for the admin with the email '" + email + "'"];
      assert t.failures == (if admin.None? then [HolderUnknown] else []) + [AccessTokenMismatch];
    }
  }

  /**
   * `verifyAccessToken` of admin/admin.js, with the credentials at the top of the body.
   * `next` is whether `next()` ran.
   */
  method VerifyAccessToken(
    db: Database, res: Reply, email: string, accessToken: string, nowAtExpiryCheck: int, nowAtGrant: int)
    returns (next: bool)
    modifies db`adminAccessTokens, res
    ensures var t := Guard(old(db.admins), old(db.adminAccessTokens), email, accessToken, nowAtExpiryCheck, nowAtGrant);
      && next == t.proceed
      && res.sent == old(res.sent) + ConsoleGuardReplies(t, email)
      && db.adminAccessTokens == AfterGuard(old(db.adminAccessTokens), email, t)
  {
    var error := new ErrorReporter(res);
    ghost var t := Guard(db.admins, db.adminAccessTokens, email, accessToken, nowAtExpiryCheck, nowAtGrant);
    var errors := GuardFieldErrors(email, accessToken);
    next := false;
    if email != "" && accessToken != "" {
      assert errors == [];
      var found;
      found, next := CheckStoredToken(db, error, email, accessToken, nowAtExpiryCheck, nowAtGrant);
      errors := errors + found;
      assert errors == found;
    } else {
      assert t == GuardTrace(GuardFieldFailures(email, accessToken), false, false);
    }
    error.Report(errors);
  }

  /** GET /users behind the guard; the handler itself is the same code as the one in routes/admin.js. */
  method UsersRoute(
    db: Database, res: Reply, email: string, accessToken: string, nowAtExpiryCheck: int, nowAtGrant: int)
    returns (admitted: bool, ghost listed: seq<Row>, ghost order: seq<string>)
    modifies db`adminAccessTokens, res
    ensures var t := Guard(old(db.admins), old(db.adminAccessTokens), email, accessToken, nowAtExpiryCheck, nowAtGrant);
      && admitted == t.proceed
      && db.adminAccessTokens == AfterGuard(old(db.adminAccessTokens), email, t)
      && (!admitted ==> res.sent == old(res.sent) + ConsoleGuardReplies(t, email))
      && (admitted ==> Listing(db.users, listed, order)
                       && res.sent == old(res.sent) + [Response(200, Rows(StripPasswords(listed)))])
  {
    admitted := VerifyAccessToken(db, res, email, accessToken, nowAtExpiryCheck, nowAtGrant);
    listed, order := [], [];
    if admitted {
      listed, order := AdminRoutes.Users(db, res);
    }
  }

  // ---------------------------------------------------------------------------
  // Properties of the reporting

  /**
   * `/auth` in admin/admin.js always answers exactly once: 200 exactly when the challenge is the
   * digest of the admin's e-mail column and the date, otherwise one 400 whose messages are the
   * failed checks in order.
   */
  lemma {:induction false} ConsoleAuthAnswersOnce(
    admins: map<string, Row>, email: string, date: Option<int>, authToken: string,
    hash: string -> string, iso: int -> string, now: int)
    ensures var rs := ConsoleAuthReplies(Authenticate(admins, email, date, authToken, hash, iso, now), email);
      && |rs| == 1
      && (rs[0].status == 200 <==>
            && email != "" && date.Some? && authToken != "" && email in admins
            && authToken == ChallengeDigest(hash, iso, Column(admins[email], EmailColumn), date.value))
      && (rs[0].status != 200 ==> rs[0].status == 400)
  {
  }

  /** With every field missing, the one 400 lists the three field messages in check order. */
  lemma EveryFieldMissingReported(
    admins: map<string, Row>, hash: string -> string, iso: int -> string, now: int)
    ensures ConsoleAuthReplies(Authenticate(admins, "", None, "", hash, iso, now), "")
      == [Response(400, Messages(["No email provided", "Invalid date format", "No authorization token provided"]))]
  {
    var t := Authenticate(admins, "", None, "", hash, iso, now);
    assert t.failures == [EmailMissing, DateInvalid, AuthTokenMissing];
    assert AuthTexts(t.failures, "") == ["No email provided", "Invalid date format", "No authorization token provided"];
  }

  /**
   * The guard's clocks can straddle the expiry instant: then nothing was recorded and nothing
   * stopped the reporter, so admin/admin.js sends a 400 with an empty list of messages.
   */
  lemma StraddledExpiryReportsNothingListed(
    admins: map<string, Row>, tokens: map<string, TokenRecord>, email: string)
    requires email != "" && email in admins && email in tokens && tokens[email].accessToken != ""
    ensures var record := tokens[email];
      var expiry := record.created + record.ttl;
      var t := Guard(admins, tokens, email, record.accessToken, expiry, expiry + 1);
      ConsoleGuardReplies(t, email) == [Response(400, Messages([]))]
  {
    var record := tokens[email];
    var expiry := record.created + record.ttl;
    ClockStraddlingExpiry(admins, tokens, email);
  }
}
