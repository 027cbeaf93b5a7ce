/**
 * The credential and access-token lifecycle that the admin console (admin/admin.js), the
 * admin routes (routes/admin.js) and the user routes (routes/user.js) each spell out:
 *
 *   - `/auth`: a client proves it knows a principal's e-mail by sending
 *     `Hash(email + ISO(date))`; on a match the server stores and returns the access token
 *     `Hash(email + ISO(created) + ttl)` with a one-hour TTL, overwriting any earlier token.
 *   - `verifyAccessToken`: the guard in front of every protected route. It reads the
 *     principal and the stored token, revokes a token found past its expiry instant, and lets
 *     the request through only for an existing principal presenting its live, stored token.
 *
 * The three handlers make the same decisions and differ only in the table they read, the
 * responses they send and the wording of one message, so the decisions are stated once here,
 * as traces (the failures met in order, the token granted, whether a revocation happened),
 * and each handler renders a trace in its own way.
 *
 * The digest is `crypto.createHash('sha256', password).update(message).digest('base64')`.
 * The password lands in createHash's options argument, so the digest depends on the message
 * alone; `hash` is that function of the message, left uninterpreted. `iso` is
 * `Date.prototype.toISOString` on millisecond instants, also left uninterpreted.
 */
module Credentials {
  import opened Common
  import opened Store
  import opened Http

  /** One hour in milliseconds: `1 * 60 * 60 * 1000`. */
  const AccessTokenTtl: nat := 3600000
  /** Six hours in milliseconds: `6 * 60 * 60 * 1000`. */
  const RegistrationTokenTtl: nat := 21600000

  /** The digest a client must present to `/auth` for the given date. */
  function ChallengeDigest(hash: string -> string, iso: int -> string, principalEmail: string, date: int): string
  {
    hash(principalEmail + iso(date))
  }

  /** The access token issued at `created`: the TTL enters the message as its decimal text. */
  function AccessTokenValue(hash: string -> string, iso: int -> string, email: string, created: int, ttl: nat): string
  {
    hash(email + iso(created) + DecimalText(ttl))
  }

  /** `new Date(token.created).getTime() + token.ttl < Date.now()`: the expiry instant itself still counts as live. */
  predicate Expired(record: TokenRecord, now: int)
  {
    record.created + record.ttl < now
  }

  // ---------------------------------------------------------------------------
  // Authentication

  datatype AuthFailure = EmailMissing | DateInvalid | AuthTokenMissing | AccountUnknown | ChallengeMismatch

  /** The failures met, in order, and the token record written on success. */
  datatype AuthTrace = AuthTrace(failures: seq<AuthFailure>, grant: Option<TokenRecord>)

  /** A check that fails adds its failure after those already met. */
  function AppendIf<T>(fs: seq<T>, failed: bool, f: T): seq<T>
  {
    if failed then fs + [f] else fs
  }

  /** Where each field check stands in the handler's sequence of checks. */
  function CheckPosition(f: AuthFailure): nat
  {
    match f
    case EmailMissing => 0
    case DateInvalid => 1
    case AuthTokenMissing => 2
    case _ => 3
  }

  /**
   * The field checks of `/auth`. A missing or falsy e-mail or challenge is "" here. A date that
   * is absent or unparsable is `None`: `new Date(...)` then yields an Invalid Date, which is still
   * an object, so the handlers' "No date provided" check never fires and such a date is
   * reported as an invalid format.
   */
  function AuthFieldFailures(email: string, date: Option<int>, authToken: string): (fs: seq<AuthFailure>)
    ensures fs == [] <==> email != "" && date.Some? && authToken != ""
  {
    var fs := AppendIf([], email == "", EmailMissing);
    var fs := AppendIf(fs, date.None?, DateInvalid);
    AppendIf(fs, authToken == "", AuthTokenMissing)
  }

  /** Each missing field is reported once, nothing else is, and the reports follow the order of the checks. */
  lemma AuthFieldFailuresInCheckOrder(email: string, date: Option<int>, authToken: string)
    ensures var fs := AuthFieldFailures(email, date, authToken);
      && (EmailMissing in fs <==> email == "")
      && (DateInvalid in fs <==> date.None?)
      && (AuthTokenMissing in fs <==> authToken == "")
      && AccountUnknown !in fs && ChallengeMismatch !in fs
      && forall i, j :: 0 <= i < j < |fs| ==> CheckPosition(fs[i]) < CheckPosition(fs[j])
  {
  }

  /**
   * The decision of `/auth` against the principal table. The principal row is looked up only
   * once every field is present; the challenge is checked against the row's own e-mail column,
   * and the token is derived from the e-mail of the request.
   */
  function Authenticate(
    principals: map<string, Row>, email: string, date: Option<int>, authToken: string,
    hash: string -> string, iso: int -> string, now: int): (t: AuthTrace)
    ensures t.grant.Some? <==>
      && email != "" && date.Some? && authToken != ""
      && email in principals
      && authToken == ChallengeDigest(hash, iso, Column(principals[email], EmailColumn), date.value)
    ensures t.grant.Some? ==> t.failures == []
    ensures t.grant.Some? ==>
      t.grant.value == TokenRecord(AccessTokenValue(hash, iso, email, now, AccessTokenTtl), now, AccessTokenTtl)
    ensures t.grant.None? ==> |t.failures| >= 1
    ensures AuthFieldFailures(email, date, authToken) != [] ==> t.failures == AuthFieldFailures(email, date, authToken)
    ensures AuthFieldFailures(email, date, authToken) == [] && email !in principals ==> t.failures == [AccountUnknown]
    ensures AuthFieldFailures(email, date, authToken) == [] && email in principals && t.grant.None? ==>
      t.failures == [ChallengeMismatch]
  {
    var missing := AuthFieldFailures(email, date, authToken);
    if missing != [] then AuthTrace(missing, None)
    else
      match Lookup(principals, email)
      case None => AuthTrace([AccountUnknown], None)
      case Some(principal) =>
        if authToken == ChallengeDigest(hash, iso, Column(principal, EmailColumn), date.value) then
          var created := now;
          AuthTrace([], Some(TokenRecord(AccessTokenValue(hash, iso, email, created, AccessTokenTtl), created, AccessTokenTtl)))
        else
          AuthTrace([ChallengeMismatch], None)
  }

  /** The token table after `/auth`: the grant overwrites whatever the e-mail held, nothing else changes. */
  function AfterAuth(tokens: map<string, TokenRecord>, email: string, t: AuthTrace): map<string, TokenRecord>
  {
    if t.grant.Some? then Upsert(tokens, email, t.grant.value) else tokens
  }

  function AuthText(f: AuthFailure, email: string): string
  {
    match f
    case EmailMissing => "No email provided"
    case DateInvalid => "Invalid date format"
    case AuthTokenMissing => "No authorization token provided"
    case AccountUnknown => "Could not find an admin with email '" + email + "'"
    case ChallengeMismatch => "Invalid authorization token"
  }

  function AuthTexts(fs: seq<AuthFailure>, email: string): (texts: seq<string>)
    ensures |texts| == |fs|
    ensures forall i :: 0 <= i < |fs| ==> texts[i] == AuthText(fs[i], email)
  {
    if fs == [] then [] else [AuthText(fs[0], email)] + AuthTexts(fs[1..], email)
  }

  lemma AuthTextsSnoc(fs: seq<AuthFailure>, f: AuthFailure, email: string)
    ensures AuthTexts(fs + [f], email) == AuthTexts(fs, email) + [AuthText(f, email)]
  {
    var l, r := AuthTexts(fs + [f], email), AuthTexts(fs, email) + [AuthText(f, email)];
    forall i | 0 <= i < |l| ensures l[i] == r[i] {
      assert (fs + [f])[i] == if i < |fs| then fs[i] else f;
    }
  }

  // ---------------------------------------------------------------------------
  // The access guard

  datatype GuardFailure = CredentialEmailMissing | AccessTokenMissing | HolderUnknown | AccessTokenMismatch

  /** The failures met, in order; whether the stored token was revoked; whether `next()` ran. */
  datatype GuardTrace = GuardTrace(failures: seq<GuardFailure>, revoke: bool, proceed: bool)

  /** The credential checks of the guard: one failure per missing credential, in check order. */
  function GuardFieldFailures(email: string, accessToken: string): (fs: seq<GuardFailure>)
    ensures fs == [] <==> email != "" && accessToken != ""
  {
    var fs := AppendIf([], email == "", CredentialEmailMissing);
    AppendIf(fs, accessToken == "", AccessTokenMissing)
  }

  /** Each missing credential is reported once, nothing else is, and the e-mail comes first. */
  lemma GuardFieldFailuresInCheckOrder(email: string, accessToken: string)
    ensures var fs := GuardFieldFailures(email, accessToken);
      && (CredentialEmailMissing in fs <==> email == "")
      && (AccessTokenMissing in fs <==> accessToken == "")
      && HolderUnknown !in fs && AccessTokenMismatch !in fs
      && (|fs| == 2 ==> fs == [CredentialEmailMissing, AccessTokenMissing])
  {
  }

  /**
   * The decision of `verifyAccessToken`. The handler reads the clock twice: once when it decides
   * whether the stored token has expired, once more when it grants. `nowAtExpiryCheck` and
   * `nowAtGrant` are those two readings.
   */
  function Guard(
    principals: map<string, Row>, tokens: map<string, TokenRecord>, email: string, accessToken: string,
    nowAtExpiryCheck: int, nowAtGrant: int): (t: GuardTrace)
    ensures t.revoke <==>
      && email != "" && accessToken != ""
      && email in principals && email in tokens && Expired(tokens[email], nowAtExpiryCheck)
    ensures t.proceed <==>
      && email != "" && accessToken != ""
      && email in principals && email in tokens
      && tokens[email].accessToken == accessToken
      && !Expired(tokens[email], nowAtExpiryCheck) && !Expired(tokens[email], nowAtGrant)
    ensures t.proceed ==> t.failures == []
    ensures email == "" || accessToken == "" ==> t == GuardTrace(GuardFieldFailures(email, accessToken), false, false)
    ensures email != "" && accessToken != "" && email !in principals ==> HolderUnknown in t.failures
    ensures email != "" && accessToken != "" && email in principals && !t.proceed && t.failures != [] ==>
      t.failures == [AccessTokenMismatch]
    ensures var stale := email !in tokens || Expired(tokens[email], nowAtExpiryCheck) || tokens[email].accessToken != accessToken;
      email != "" && accessToken != "" && email in principals && stale ==> t.failures == [AccessTokenMismatch]
  {
    var fieldFailures := GuardFieldFailures(email, accessToken);
    if fieldFailures != [] then GuardTrace(fieldFailures, false, false)
    else
      var principal := Lookup(principals, email);
      var stored := Lookup(tokens, email);
      var unknown := if principal.None? then [HolderUnknown] else [];
      var revoke := principal.Some? && stored.Some? && Expired(stored.value, nowAtExpiryCheck);
      var token := if revoke then None else stored;
      if token.Some? && token.value.accessToken == accessToken then
        GuardTrace(unknown, revoke, principal.Some? && !Expired(token.value, nowAtGrant))
      else
        GuardTrace(unknown + [AccessTokenMismatch], revoke, false)
  }

  /** The token table after the guard: the expired record is gone, nothing else changes. */
  function AfterGuard(tokens: map<string, TokenRecord>, email: string, t: GuardTrace): map<string, TokenRecord>
  {
    if t.revoke then Remove(tokens, email) else tokens
  }

  // ---------------------------------------------------------------------------
  // The routes' rendering: one response per failure, in order

  function RouteAuthStatus(f: AuthFailure): int
  {
    if f == AccountUnknown || f == ChallengeMismatch then 401 else 400
  }

  /** The routes' answer to each failure, in order: one response per failure. */
  function RouteAuthFailureReplies(fs: seq<AuthFailure>, email: string): (rs: seq<Response>)
    ensures |rs| == |fs|
  {
    if fs == [] then []
    else
      var f := fs[|fs| - 1];
      RouteAuthFailureReplies(fs[..|fs| - 1], email) + [Response(RouteAuthStatus(f), Text(AuthText(f, email)))]
  }

  /** What `/auth` in routes/admin.js and routes/user.js sends. */
  function RouteAuthReplies(t: AuthTrace, email: string): (rs: seq<Response>)
    ensures t.grant.Some? ==> rs == [Response(200, AccessGrant(t.grant.value.accessToken, t.grant.value.ttl))]
    ensures t.grant.None? ==> |rs| == |t.failures|
  {
    if t.grant.Some? then
      [Response(200, AccessGrant(t.grant.value.accessToken, t.grant.value.ttl))]
    else
      RouteAuthFailureReplies(t.failures, email)
  }

  /** Every failure gets its own response, in order: 401 for an unknown account or a wrong challenge, 400 otherwise. */
  lemma {:induction false} RouteAuthRepliesInOrder(fs: seq<AuthFailure>, email: string)
    ensures var rs := RouteAuthReplies(AuthTrace(fs, None), email);
      && |rs| == |fs|
      && forall i :: 0 <= i < |fs| ==> rs[i] == Response(RouteAuthStatus(fs[i]), Text(AuthText(fs[i], email)))
    decreases |fs|
  {
    if fs != [] {
      RouteAuthRepliesInOrder(fs[..|fs| - 1], email);
    }
  }

  lemma RouteAuthRepliesSingle(f: AuthFailure, email: string)
    ensures RouteAuthReplies(AuthTrace([f], None), email) == [Response(RouteAuthStatus(f), Text(AuthText(f, email)))]
  {
    assert [f][..0] == [];
  }

  /** One more failure adds its response after those already sent. */
  lemma RouteAuthRepliesSnoc(sent: seq<Response>, fs: seq<AuthFailure>, f: AuthFailure, email: string)
    ensures sent + RouteAuthReplies(AuthTrace(fs + [f], None), email)
      == (sent + RouteAuthReplies(AuthTrace(fs, None), email)) + [Response(RouteAuthStatus(f), Text(AuthText(f, email)))]
  {
    assert (fs + [f])[..|fs|] == fs;
  }

  function RouteGuardStatus(f: GuardFailure): int
  {
    if f == HolderUnknown || f == AccessTokenMismatch then 401 else 400
  }

  function RouteGuardText(f: GuardFailure, email: string): string
  {
    match f
    case CredentialEmailMissing => "No email provided"
    case AccessTokenMissing => "No access token provided"
    case HolderUnknown => "Could not find an admin with the email '" + email + "'"
    case AccessTokenMismatch => "Invalid access token for the admin with the email '" + email + "'"
  }

  /** What `verifyAccessToken` in routes/admin.js and routes/user.js sends: one response per failure, in order. */
  function RouteGuardReplies(t: GuardTrace, email: string): (rs: seq<Response>)
    ensures |rs| == |t.failures|
    decreases |t.failures|
  {
    if t.failures == [] then []
    else
      var f := t.failures[|t.failures| - 1];
      RouteGuardReplies(t.(failures := t.failures[..|t.failures| - 1]), email)
      + [Response(RouteGuardStatus(f), Text(RouteGuardText(f, email)))]
  }

  /** Every guard failure gets its own response, in order: 401 for an unknown holder or a wrong token, 400 otherwise. */
  lemma {:induction false} RouteGuardRepliesInOrder(t: GuardTrace, email: string)
    ensures var rs := RouteGuardReplies(t, email);
      forall i :: 0 <= i < |t.failures| ==>
        rs[i] == Response(RouteGuardStatus(t.failures[i]), Text(RouteGuardText(t.failures[i], email)))
    decreases |t.failures|
  {
    if t.failures != [] {
      RouteGuardRepliesInOrder(t.(failures := t.failures[..|t.failures| - 1]), email);
    }
  }

  /** One more failure adds its response after those already sent. */
  lemma RouteGuardRepliesSnoc(
    sent: seq<Response>, fs: seq<GuardFailure>, f: GuardFailure, revoke: bool, proceed: bool, email: string)
    ensures sent + RouteGuardReplies(GuardTrace(fs + [f], revoke, proceed), email)
      == (sent + RouteGuardReplies(GuardTrace(fs, revoke, proceed), email)) + [Response(RouteGuardStatus(f), Text(RouteGuardText(f, email)))]
  {
    assert (fs + [f])[..|fs|] == fs;
  }

  /** `res.status(...).send(...)` for one failure of `/auth`. */
  method SendAuthFailure(res: Reply, f: AuthFailure, email: string)
    modifies res
    ensures res.sent == old(res.sent) + [Response(RouteAuthStatus(f), Text(AuthText(f, email)))]
  {
    res.Send(RouteAuthStatus(f), Text(AuthText(f, email)));
  }

  /** `res.status(...).send(...)` for one failure of the guard. */
  method SendGuardFailure(res: Reply, f: GuardFailure, email: string)
    modifies res
    ensures res.sent == old(res.sent) + [Response(RouteGuardStatus(f), Text(RouteGuardText(f, email)))]
  {
    res.Send(RouteGuardStatus(f), Text(RouteGuardText(f, email)));
  }

  /** The field checks of `/auth` in the routes, each sending its own 400. */
  method SendAuthFieldFailures(res: Reply, email: string, date: Option<int>, authToken: string)
    modifies res
    ensures res.sent == old(res.sent) + RouteAuthReplies(AuthTrace(AuthFieldFailures(email, date, authToken), None), email)
  {
    ghost var fs: seq<AuthFailure> := [];
    assert res.sent == old(res.sent) + RouteAuthReplies(AuthTrace(fs, None), email);
    if email == "" {
      RouteAuthRepliesSnoc(old(res.sent), fs, EmailMissing, email);
      SendAuthFailure(res, EmailMissing, email);
    }
    fs := AppendIf(fs, email == "", EmailMissing);
    assert res.sent == old(res.sent) + RouteAuthReplies(AuthTrace(fs, None), email);
    // `new Date(req.body?.date)` is always an object, so the "No date provided" branch is dead.
    if date.None? {
      RouteAuthRepliesSnoc(old(res.sent), fs, DateInvalid, email);
      SendAuthFailure(res, DateInvalid, email);
    }
    fs := AppendIf(fs, date.None?, DateInvalid);
    assert res.sent == old(res.sent) + RouteAuthReplies(AuthTrace(fs, None), email);
    if authToken == "" {
      RouteAuthRepliesSnoc(old(res.sent), fs, AuthTokenMissing, email);
      SendAuthFailure(res, AuthTokenMissing, email);
    }
    fs := AppendIf(fs, authToken == "", AuthTokenMissing);
  }

  /** The credential checks of the guard in the routes, each sending its own 400. */
  method SendGuardFieldFailures(res: Reply, email: string, accessToken: string)
    modifies res
    ensures res.sent == old(res.sent) + RouteGuardReplies(GuardTrace(GuardFieldFailures(email, accessToken), false, false), email)
  {
    ghost var fs: seq<GuardFailure> := [];
    assert res.sent == old(res.sent) + RouteGuardReplies(GuardTrace(fs, false, false), email);
    if email == "" {
      RouteGuardRepliesSnoc(old(res.sent), fs, CredentialEmailMissing, false, false, email);
      SendGuardFailure(res, CredentialEmailMissing, email);
    }
    fs := AppendIf(fs, email == "", CredentialEmailMissing);
    assert res.sent == old(res.sent) + RouteGuardReplies(GuardTrace(fs, false, false), email);
    if accessToken == "" {
      RouteGuardRepliesSnoc(old(res.sent), fs, AccessTokenMissing, false, false, email);
      SendGuardFailure(res, AccessTokenMissing, email);
    }
    fs := AppendIf(fs, accessToken == "", AccessTokenMissing);
  }

  // ---------------------------------------------------------------------------
  // Properties of the lifecycle

  /**
   * Round trip: a client that sends the digest of the principal's e-mail column and the date is
   * granted a token, and that token passes the guard for as long as it is live.
   */
  lemma ChallengeRoundTrip(
    principals: map<string, Row>, tokens: map<string, TokenRecord>, email: string, date: int,
    hash: string -> string, iso: int -> string, now: int, nowAtExpiryCheck: int, nowAtGrant: int)
    requires email != "" && email in principals
    requires ChallengeDigest(hash, iso, Column(principals[email], EmailColumn), date) != ""
    requires AccessTokenValue(hash, iso, email, now, AccessTokenTtl) != ""
    requires nowAtExpiryCheck <= nowAtGrant <= now + AccessTokenTtl
    ensures var challenge := ChallengeDigest(hash, iso, Column(principals[email], EmailColumn), date);
      var t := Authenticate(principals, email, Some(date), challenge, hash, iso, now);
      && t.grant.Some?
      && Guard(principals, AfterAuth(tokens, email, t), email, t.grant.value.accessToken, nowAtExpiryCheck, nowAtGrant).proceed
  {
    var challenge := ChallengeDigest(hash, iso, Column(principals[email], EmailColumn), date);
    var t := Authenticate(principals, email, Some(date), challenge, hash, iso, now);
    assert AfterAuth(tokens, email, t)[email] == t.grant.value;
  }

  /**
   * Expiry at one instant: a stored, matching token of an existing principal lets the request
   * through exactly up to and including `created + ttl`; any later it is revoked and refused.
   */
  lemma ExpiryBoundary(
    principals: map<string, Row>, tokens: map<string, TokenRecord>, email: string, accessToken: string, now: int)
    requires email != "" && accessToken != "" && email in principals && email in tokens
    requires tokens[email].accessToken == accessToken
    ensures var t := Guard(principals, tokens, email, accessToken, now, now);
      && (t.proceed <==> now <= tokens[email].created + tokens[email].ttl)
      && (t.revoke <==> !t.proceed)
      && (!t.proceed ==> t.failures == [AccessTokenMismatch] && email !in AfterGuard(tokens, email, t))
  {
  }

  /**
   * With a clock that does not run backwards, the guard lets a request through exactly when the
   * principal exists and its stored token matches and is live at the later reading.
   */
  lemma GuardWithMonotoneClock(
    principals: map<string, Row>, tokens: map<string, TokenRecord>, email: string, accessToken: string,
    nowAtExpiryCheck: int, nowAtGrant: int)
    requires nowAtExpiryCheck <= nowAtGrant
    ensures Guard(principals, tokens, email, accessToken, nowAtExpiryCheck, nowAtGrant).proceed <==>
      && email != "" && accessToken != "" && email in principals && email in tokens
      && tokens[email].accessToken == accessToken && !Expired(tokens[email], nowAtGrant)
  {
  }

  /**
   * The two clock readings can straddle the expiry instant: the token is live at the first and
   * expired at the second. The guard then neither records a failure nor lets the request through.
   */
  lemma ClockStraddlingExpiry(
    principals: map<string, Row>, tokens: map<string, TokenRecord>, email: string)
    requires email != "" && email in principals && email in tokens && tokens[email].accessToken != ""
    ensures var record := tokens[email];
      var expiry := record.created + record.ttl;
      var t := Guard(principals, tokens, email, record.accessToken, expiry, expiry + 1);
      t.failures == [] && !t.proceed && !t.revoke
  {
  }

  /**
   * Rotation: re-authenticating overwrites the principal's token, so a token issued earlier no
   * longer passes the guard once a different one has been issued.
   */
  lemma RotationRevokesEarlierToken(
    principals: map<string, Row>, tokens: map<string, TokenRecord>, email: string,
    first: AuthTrace, second: AuthTrace, nowAtExpiryCheck: int, nowAtGrant: int)
    requires first.grant.Some? && second.grant.Some?
    requires first.grant.value.accessToken != second.grant.value.accessToken
    ensures var rotated := AfterAuth(AfterAuth(tokens, email, first), email, second);
      var t := Guard(principals, rotated, email, first.grant.value.accessToken, nowAtExpiryCheck, nowAtGrant);
      !t.proceed && (email != "" && first.grant.value.accessToken != "" ==> AccessTokenMismatch in t.failures)
  {
    var rotated := AfterAuth(AfterAuth(tokens, email, first), email, second);
    assert rotated[email] == second.grant.value;
  }

  /** An e-mail with no principal row is refused by `/auth` and by the guard alike. */
  lemma UnknownPrincipalRefused(
    principals: map<string, Row>, tokens: map<string, TokenRecord>, email: string, date: int,
    authToken: string, accessToken: string, hash: string -> string, iso: int -> string,
    now: int, nowAtExpiryCheck: int, nowAtGrant: int)
    requires email != "" && authToken != "" && accessToken != "" && email !in principals
    ensures Authenticate(principals, email, Some(date), authToken, hash, iso, now) == AuthTrace([AccountUnknown], None)
    ensures var t := Guard(principals, tokens, email, accessToken, nowAtExpiryCheck, nowAtGrant);
      !t.proceed && !t.revoke && HolderUnknown in t.failures
  {
  }

  /** Any challenge other than the expected digest, a single flipped character included, is refused. */
  lemma TamperedChallengeRefused(
    principals: map<string, Row>, email: string, date: int, authToken: string,
    hash: string -> string, iso: int -> string, now: int)
    requires email != "" && authToken != "" && email in principals
    requires authToken != ChallengeDigest(hash, iso, Column(principals[email], EmailColumn), date)
    ensures Authenticate(principals, email, Some(date), authToken, hash, iso, now) == AuthTrace([ChallengeMismatch], None)
  {
  }

  /**
   * The challenge is not keyed by the password: two principal tables that differ only in their
   * password columns give every request the same outcome. Knowing a principal's e-mail is enough
   * to compute a valid challenge.
   */
  lemma ChallengeIgnoresPassword(
    principals: map<string, Row>, others: map<string, Row>, email: string, date: Option<int>,
    authToken: string, hash: string -> string, iso: int -> string, now: int)
    requires principals.Keys == others.Keys
    requires forall e :: e in principals ==> principals[e] - {PasswordColumn} == others[e] - {PasswordColumn}
    ensures Authenticate(principals, email, date, authToken, hash, iso, now)
         == Authenticate(others, email, date, authToken, hash, iso, now)
  {
    if email in principals {
      var mine, theirs := principals[email], others[email];
      assert EmailColumn != PasswordColumn;
      assert EmailColumn in mine <==> EmailColumn in mine - {PasswordColumn};
      assert EmailColumn in theirs <==> EmailColumn in theirs - {PasswordColumn};
      assert Column(mine, EmailColumn) == Column(theirs, EmailColumn) by {
        if EmailColumn in mine {
          assert mine[EmailColumn] == (mine - {PasswordColumn})[EmailColumn];
          assert theirs[EmailColumn] == (theirs - {PasswordColumn})[EmailColumn];
        }
      }
    }
  }

  /**
   * Nothing ties the challenge date to the clock: a captured challenge is accepted again at any
   * later time, and each replay issues a fresh token.
   */
  lemma ChallengeReplayable(
    principals: map<string, Row>, email: string, date: Option<int>, authToken: string,
    hash: string -> string, iso: int -> string, now: int, later: int)
    ensures Authenticate(principals, email, date, authToken, hash, iso, now).grant.Some?
        <==> Authenticate(principals, email, date, authToken, hash, iso, later).grant.Some?
  {
  }
}
