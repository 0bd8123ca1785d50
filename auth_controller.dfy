/** `AuthController`, mapped under `/v1/auth`: `register` and `login`
    delegate to the service and wrap its tokens in an `ok` envelope;
    `refresh` rotates the refresh token sent in the `refresh_token`
    cookie. */
module Endpoints {
  import opened Wrappers
  import opened Entities
  import opened Repositories
  import opened Errors
  import opened Responses
  import opened RefreshTokens
  import opened Auth

  const REQUEST_MAPPING := "/v1/auth"
  const MISSING_COOKIE := "Missing refresh token cookie"

  /** A `Set-Cookie` value as `ResponseCookie` builds it. */
  datatype ResponseCookie = ResponseCookie(
    name: string,
    value: string,
    httpOnly: bool,
    secure: bool,
    sameSite: string,
    path: string,
    maxAgeSeconds: int)

  /** A 200 response: the envelope and, for `refresh`, the cookie. */
  datatype HttpReply = HttpReply(status: int, body: ApiResponse<AuthTokens>, setCookie: Option<ResponseCookie>)

  /** The cookie `refresh` sets: HTTP-only, secure, SameSite=Lax, under
      `/auth`, living as long as the refresh token it carries. */
  function RefreshCookie(value: string): (c: ResponseCookie)
    ensures c.name == "refresh_token" && c.value == value
    ensures c.httpOnly && c.secure && c.sameSite == "Lax" && c.path == "/auth"
    ensures c.maxAgeSeconds == REFRESH_TOKEN_VALIDITY_SECONDS
  {
    ResponseCookie("refresh_token", value, true, true, "Lax", "/auth", 30 * 24 * 60 * 60)
  }

  /** The path-match rule of section 5.1.4 of RFC 6265: whether a user agent
      sends a cookie with path `cookiePath` along with a request for
      `requestPath`. */
  predicate PathMatches(requestPath: string, cookiePath: string) {
    || requestPath == cookiePath
    || (&& cookiePath <= requestPath
        && ((|cookiePath| > 0 && cookiePath[|cookiePath| - 1] == '/')
            || (|requestPath| > |cookiePath| && requestPath[|cookiePath|] == '/')))
  }

  /** The cookie's path `/auth` is not a prefix of the controller's mapping,
      so under RFC 6265 a user agent does not attach it to a request for
      `/v1/auth/refresh`; a cookie under the mapping itself would be. */
  lemma RefreshCookiePathOutsideMapping(value: string)
    ensures !PathMatches(REQUEST_MAPPING + "/refresh", RefreshCookie(value).path)
    ensures PathMatches(REQUEST_MAPPING + "/refresh", REQUEST_MAPPING)
  {
  }

  /** `register` and `login` endpoints: a service failure propagates to the
      exception handler; a success becomes 200 with `ApiResponse.ok`. */
  function Delegated(r: Result<AuthTokens, AuthError>): (reply: Result<HttpReply, AuthError>)
    ensures reply.Failure? <==> r.Failure?
    ensures r.Failure? ==> reply.error == r.error
    ensures r.Success? ==> reply.value.status == 200 && reply.value.setCookie.None?
    ensures r.Success? ==> reply.value.body.success && reply.value.body.data == Some(r.value)
    ensures r.Success? ==> reply == Success(HttpReply(200, Ok(r.value), None))
  {
    match r
    case Failure(e) => Failure(e)
    case Success(tokens) => Success(HttpReply(200, Ok(tokens), None))
  }

  /** `Character.isWhitespace`: the Unicode space, line and paragraph
      separators other than the three no-break spaces, and the controls
      U+0009 to U+000D and U+001C to U+001F. */
  predicate IsWhitespace(ch: char) {
    var n := ch as int;
    || 0x09 <= n <= 0x0D
    || 0x1C <= n <= 0x20
    || n == 0x1680
    || 0x2000 <= n <= 0x2006
    || 0x2008 <= n <= 0x200A
    || n == 0x2028 || n == 0x2029 || n == 0x205F || n == 0x3000
  }

  /** `String.isBlank`: empty or white space only. */
  predicate IsBlank(s: string) {
    forall i :: 0 <= i < |s| ==> IsWhitespace(s[i])
  }

  /** The cookie `refresh` reads, when present and not blank. */
  predicate Presented(refreshToken: Option<string>) {
    refreshToken.Some? && !IsBlank(refreshToken.value)
  }

  /** `refresh`: reject a missing or blank cookie; consume the presented
      token for the requested project BEFORE any other lookup; then look up
      the token's user, its project and the membership; then issue a new
      access token and store a new refresh token, both bound to the
      consumed record's user and project. The new refresh token travels in
      the cookie only; the body's `refreshToken` is null. A failure after
      the consumption keeps the old token revoked (fail-closed). */
  function RefreshOutcome(db: Db, c: Collaborators, projectId: ProjectId, refreshToken: Option<string>,
                          userAgent: Option<string>, ipAddress: Option<string>, now: Instant, plainToken: string)
    : (o: Outcome<HttpReply>)
    ensures !Presented(refreshToken) ==> o == Outcome(Failure(InvalidRefreshToken(MISSING_COOKIE)), db)
    ensures Presented(refreshToken) ==>
      var consumed := Consumed(db.tokens, c.md5Hex(refreshToken.value), projectId, now);
      && o.db.users == db.users && o.db.projects == db.projects && o.db.memberships == db.memberships
      && (consumed.result.Failure? ==> o == Outcome(Failure(consumed.result.error), db))
      && (o.result.Failure? ==> o.db.tokens == consumed.tokens)
    ensures Presented(refreshToken) ==>
      var consumed := Consumed(db.tokens, c.md5Hex(refreshToken.value), projectId, now);
      consumed.result.Success? ==>
      var rt := consumed.result.value;
      var user := UserById(db, rt.userId);
      && (user.Failure? ==> o.result == Failure(UserNotFound))
      && (user.Success? && projectId !in db.projects ==> o.result == Failure(ProjectNotFound(projectId)))
      && (user.Success? && projectId in db.projects ==>
            (o.result == Failure(ProjectAccessDenied(projectId))
             <==> FindByUserAndProject(db.memberships, rt.userId, projectId).None?))
    ensures o.result.Success? <==>
      (Presented(refreshToken) &&
       var consumed := Consumed(db.tokens, c.md5Hex(refreshToken.value), projectId, now);
       && consumed.result.Success?
       && UserById(db, consumed.result.value.userId).Success?
       && projectId in db.projects
       && FindByUserAndProject(db.memberships, consumed.result.value.userId, projectId).Some?)
    ensures o.result.Success? ==>
      Presented(refreshToken) &&
      var consumed := Consumed(db.tokens, c.md5Hex(refreshToken.value), projectId, now);
      consumed.result.Success? &&
      var rt := consumed.result.value;
      var user := UserById(db, rt.userId);
      var membership := FindByUserAndProject(db.memberships, rt.userId, projectId);
      && user.Success? && projectId in db.projects && membership.Some?
      && o.db.tokens == Generated(consumed.tokens, rt.userId, projectId, c.md5Hex(plainToken), userAgent, ipAddress, now)
      && o.result.value.status == 200
      && o.result.value.body == Ok(AuthTokens(c.issue(rt.userId, user.value.email, projectId,
                                                      [db.memberships[membership.value].role.Name()]), None))
      && o.result.value.setCookie == Some(RefreshCookie(plainToken))
  {
    if !Presented(refreshToken) then Outcome(Failure(InvalidRefreshToken(MISSING_COOKIE)), db)
    else
      var consumed := Consumed(db.tokens, c.md5Hex(refreshToken.value), projectId, now);
      var db1 := db.(tokens := consumed.tokens);
      match consumed.result
      case Failure(e) => Outcome(Failure(e), db1)
      case Success(rt) =>
        match UserById(db1, rt.userId)
        case Failure(e) => Outcome(Failure(e), db1)
        case Success(user) =>
          if rt.projectId !in db1.projects then Outcome(Failure(ProjectNotFound(rt.projectId)), db1)
          else match FindByUserAndProject(db1.memberships, user.id, rt.projectId)
            case None => Outcome(Failure(ProjectAccessDenied(rt.projectId)), db1)
            case Some(k) =>
              var roles := [db1.memberships[k].role.Name()];
              var accessToken := c.issue(user.id, user.email, rt.projectId, roles);
              var tokens := Generated(db1.tokens, user.id, rt.projectId, c.md5Hex(plainToken), userAgent, ipAddress, now);
              var body := Ok(AuthTokens(accessToken, None));
              Outcome(Success(HttpReply(200, body, Some(RefreshCookie(plainToken)))), db1.(tokens := tokens))
  }

  // Properties of the rotation.

  lemma RefreshPreservesConsistency(db: Db, c: Collaborators, projectId: ProjectId, refreshToken: Option<string>,
                                    userAgent: Option<string>, ipAddress: Option<string>, now: Instant, plainToken: string)
    requires Consistent(db) && HashUnused(db.tokens, c.md5Hex(plainToken))
    ensures Consistent(RefreshOutcome(db, c, projectId, refreshToken, userAgent, ipAddress, now, plainToken).db)
  {
  }

  /** No tenant switch: a successful refresh binds the new refresh record,
      and the new access token, to the project the caller named and the
      consumed record was issued for, and to the same user. */
  lemma RefreshKeepsTenantAndUser(db: Db, c: Collaborators, projectId: ProjectId, refreshToken: Option<string>,
                                  userAgent: Option<string>, ipAddress: Option<string>, now: Instant, plainToken: string)
    requires RefreshOutcome(db, c, projectId, refreshToken, userAgent, ipAddress, now, plainToken).result.Success?
    ensures var o := RefreshOutcome(db, c, projectId, refreshToken, userAgent, ipAddress, now, plainToken);
      var previous := db.tokens[FindByTokenHash(db.tokens, c.md5Hex(refreshToken.value)).value];
      var created := o.db.tokens[|db.tokens|];
      && |o.db.tokens| == |db.tokens| + 1
      && previous.projectId == projectId && created.projectId == projectId
      && created.userId == previous.userId
      && !created.revoked && created.tokenHash == c.md5Hex(plainToken)
  {
  }

  /** Fail-closed: once the presented token was consumed, a failing
      user, project or membership lookup leaves it revoked and stores no new
      token. */
  lemma RefreshFailsClosed(db: Db, c: Collaborators, projectId: ProjectId, refreshToken: Option<string>,
                           userAgent: Option<string>, ipAddress: Option<string>, now: Instant, plainToken: string)
    requires Presented(refreshToken)
    requires Consumed(db.tokens, c.md5Hex(refreshToken.value), projectId, now).result.Success?
    requires RefreshOutcome(db, c, projectId, refreshToken, userAgent, ipAddress, now, plainToken).result.Failure?
    ensures var o := RefreshOutcome(db, c, projectId, refreshToken, userAgent, ipAddress, now, plainToken);
      var k := FindByTokenHash(db.tokens, c.md5Hex(refreshToken.value)).value;
      && |o.db.tokens| == |db.tokens|
      && !db.tokens[k].revoked && o.db.tokens[k].revoked
      && o.result.error in {UserNotFound, ProjectNotFound(projectId), ProjectAccessDenied(projectId)}
  {
  }

  /** Replay: the cookie a successful refresh consumed is refused on every
      later refresh, for any project and at any time. */
  lemma RefreshReplayFails(db: Db, c: Collaborators, projectId: ProjectId, refreshToken: Option<string>,
                           userAgent: Option<string>, ipAddress: Option<string>, now: Instant, plainToken: string,
                           projectId2: ProjectId, now2: Instant, plainToken2: string)
    requires HashUnused(db.tokens, c.md5Hex(plainToken))
    requires RefreshOutcome(db, c, projectId, refreshToken, userAgent, ipAddress, now, plainToken).result.Success?
    ensures var db1 := RefreshOutcome(db, c, projectId, refreshToken, userAgent, ipAddress, now, plainToken).db;
      var o := RefreshOutcome(db1, c, projectId2, refreshToken, userAgent, ipAddress, now2, plainToken2);
      o.result.Failure? && o.result.error.InvalidRefreshToken? && o.db == db1
  {
  }

  /** Rotation chains: the token a refresh hands out refreshes again, for
      the same project, until it expires, while user and membership stay. */
  lemma RotatedTokenRefreshes(db: Db, c: Collaborators, projectId: ProjectId, refreshToken: Option<string>,
                              userAgent: Option<string>, ipAddress: Option<string>, now: Instant, plainToken: string,
                              now2: Instant, plainToken2: string)
    requires HashUnused(db.tokens, c.md5Hex(plainToken)) && !IsBlank(plainToken)
    requires now2 <= now + REFRESH_TOKEN_VALIDITY_SECONDS
    requires RefreshOutcome(db, c, projectId, refreshToken, userAgent, ipAddress, now, plainToken).result.Success?
    ensures var db1 := RefreshOutcome(db, c, projectId, refreshToken, userAgent, ipAddress, now, plainToken).db;
      RefreshOutcome(db1, c, projectId, Some(plainToken), userAgent, ipAddress, now2, plainToken2).result.Success?
  {
  }

  /** After `revokeAll(u)`, every refresh that presents a token of `u`
      fails, and changes nothing. */
  lemma RevokeAllBlocksRefresh(db: Db, c: Collaborators, userId: Uuid, projectId: ProjectId, refreshToken: Option<string>,
                               userAgent: Option<string>, ipAddress: Option<string>, now: Instant, plainToken: string)
    requires Presented(refreshToken)
    requires FindByTokenHash(db.tokens, c.md5Hex(refreshToken.value)).Some?
    requires db.tokens[FindByTokenHash(db.tokens, c.md5Hex(refreshToken.value)).value].userId == userId
    ensures var revoked := db.(tokens := RevokedAll(db.tokens, userId));
      var o := RefreshOutcome(revoked, c, projectId, refreshToken, userAgent, ipAddress, now, plainToken);
      o.result.Failure? && o.result.error.InvalidRefreshToken? && o.db == revoked
  {
  }

  /** A token issued at login for one project is refused, as belonging to a
      different project, when presented for another, and nothing changes. */
  lemma LoginTokenRefusedForOtherProject(db: Db, c: Collaborators, email: string, rawPassword: string,
                                         projectId: ProjectId, userAgent: Option<string>, ipAddress: Option<string>,
                                         now: Instant, plainToken: string, otherProject: ProjectId, now2: Instant,
                                         plainToken2: string)
    requires HashUnused(db.tokens, c.md5Hex(plainToken)) && !IsBlank(plainToken)
    requires otherProject != projectId
    requires LoginOutcome(db, c, email, rawPassword, projectId, userAgent, ipAddress, now, plainToken).result.Success?
    ensures var db1 := LoginOutcome(db, c, email, rawPassword, projectId, userAgent, ipAddress, now, plainToken).db;
      var o := RefreshOutcome(db1, c, otherProject, Some(plainToken), userAgent, ipAddress, now2, plainToken2);
      o == Outcome(Failure(InvalidRefreshToken(OTHER_PROJECT)), db1)
  {
  }

  /** The controller bean. Its project and membership repositories are the
      same beans the service uses, so it reads them through the service. */
  class AuthController {
    const authService: AuthService
    const refreshTokenService: RefreshTokenService

    ghost predicate Valid()
      reads this, authService, authService.refreshTokenService
    {
      refreshTokenService == authService.refreshTokenService && authService.Valid()
    }

    constructor (authService: AuthService)
      requires authService.Valid()
      ensures Valid() && this.authService == authService
    {
      this.authService := authService;
      this.refreshTokenService := authService.refreshTokenService;
    }

    method Register(email: string, password: string, projectId: ProjectId,
                    userAgent: Option<string>, clientIp: Option<string>, now: Instant, plainToken: string)
      returns (r: Result<HttpReply, AuthError>)
      requires Valid() && HashUnused(refreshTokenService.repo, refreshTokenService.md5Hex(plainToken))
      modifies authService, refreshTokenService
      ensures Valid()
      ensures var o := RegisterOutcome(old(authService.State()), authService.Collab(), email, password, projectId,
                                       userAgent, clientIp, now, plainToken);
        authService.State() == o.db && r == Delegated(o.result)
    {
      var tokens := authService.Register(email, password, projectId, userAgent, clientIp, now, plainToken);
      r := Delegated(tokens);
    }

    method Login(email: string, password: string, projectId: ProjectId,
                 userAgent: Option<string>, clientIp: Option<string>, now: Instant, plainToken: string)
      returns (r: Result<HttpReply, AuthError>)
      requires Valid() && HashUnused(refreshTokenService.repo, refreshTokenService.md5Hex(plainToken))
      modifies authService, refreshTokenService
      ensures Valid()
      ensures var o := LoginOutcome(old(authService.State()), authService.Collab(), email, password, projectId,
                                    userAgent, clientIp, now, plainToken);
        authService.State() == o.db && r == Delegated(o.result)
    {
      var tokens := authService.Login(email, password, projectId, userAgent, clientIp, now, plainToken);
      r := Delegated(tokens);
    }

    method Refresh(projectId: ProjectId, refreshToken: Option<string>, userAgent: Option<string>,
                   clientIp: Option<string>, now: Instant, plainToken: string)
      returns (r: Result<HttpReply, AuthError>)
      requires Valid() && HashUnused(refreshTokenService.repo, refreshTokenService.md5Hex(plainToken))
      modifies authService, refreshTokenService
      ensures Valid()
      ensures Outcome(r, authService.State()) ==
        RefreshOutcome(old(authService.State()), authService.Collab(), projectId, refreshToken,
                       userAgent, clientIp, now, plainToken)
    {
      RefreshPreservesConsistency(authService.State(), authService.Collab(), projectId, refreshToken,
                                  userAgent, clientIp, now, plainToken);
      if refreshToken.None? || IsBlank(refreshToken.value) {
        return Failure(InvalidRefreshToken(MISSING_COOKIE));
      }
      ghost var before := refreshTokenService.repo;
      var consumed := refreshTokenService.Consume(refreshToken.value, projectId, now);
      if consumed.Failure? {
        return Failure(consumed.error);
      }
      var rt := consumed.value;
      var user := authService.GetUserById(rt.userId);
      if user.Failure? {
        return Failure(user.error);
      }
      if rt.projectId !in authService.projects {
        return Failure(ProjectNotFound(rt.projectId));
      }
      var membership := FindByUserAndProject(authService.memberships, user.value.id, rt.projectId);
      if membership.None? {
        return Failure(ProjectAccessDenied(rt.projectId));
      }
      var roles := [authService.memberships[membership.value].role.Name()];
      var accessToken := authService.issue(user.value.id, user.value.email, rt.projectId, roles);
      assert forall i :: 0 <= i < |before| ==> refreshTokenService.repo[i].tokenHash == before[i].tokenHash;
      var newRefreshToken := refreshTokenService.GenerateAndStore(user.value.id, rt.projectId, userAgent, clientIp,
                                                                  now, plainToken);
      var cookie := RefreshCookie(newRefreshToken);
      r := Success(HttpReply(200, Ok(AuthTokens(accessToken, None)), Some(cookie)));
    }
  }
}
