/** `AuthService`: registration, login and lookup of users, over the user,
    project, membership and refresh-token tables. Each flow is a function
    from the tables before to its result and the tables after; the class
    `AuthService` runs the same flows step by step over its fields. */
module Auth {
  import opened Wrappers
  import opened Entities
  import opened Repositories
  import opened Errors
  import opened RefreshTokens

  /** The four tables the flows read and write. Projects are only looked
      up, so the project table is the set of their ids. */
  datatype Db = Db(
    users: seq<AuthUser>,
    projects: set<ProjectId>,
    memberships: seq<AuthUserProjectMembership>,
    tokens: seq<AuthRefreshToken>)

  /** The database constraints, as one invariant of the tables. */
  predicate Consistent(db: Db) {
    && UserIdsAreIndices(db.users)
    && UniqueEmails(db.users)
    && (forall p :: p in db.projects ==> |p| <= MAX_PROJECT_ID_LENGTH)
    && UniqueMemberships(db.memberships)
    && MembershipsReferToUsers(db.memberships, |db.users|)
    && MembershipsReferToProjects(db.memberships, db.projects)
    && WellFormed(db.tokens)
  }

  /** The external capabilities the flows use, left uninterpreted. */
  datatype Collaborators = Collaborators(
    /** `DigestUtils.md5DigestAsHex` over UTF-8 bytes. */
    md5Hex: string -> string,
    /** `PasswordEncoder.encode`. */
    encode: string -> string,
    /** `PasswordEncoder.matches(raw, hash)`. */
    matches: (string, string) -> bool,
    /** `JwtService.generateAccessToken(userId, email, projectId, roles)`. */
    issue: (Uuid, string, ProjectId, seq<string>) -> string)

  /** `AuthTokensDTO`: an access token and, when the body carries it, a
      refresh token. */
  datatype AuthTokens = AuthTokens(accessToken: string, refreshToken: Option<string>)

  /** What a flow answers, with the tables after it. */
  datatype Outcome<T> = Outcome(result: Result<T, AuthError>, db: Db)

  /** `register`: the project must exist, then the email must be unused.
      On success one user and one `USER` membership are added, and an access
      token and a refresh token are issued for the new user in the
      requested project. */
  function RegisterOutcome(db: Db, c: Collaborators, email: string, rawPassword: string, projectId: ProjectId,
                           userAgent: Option<string>, ipAddress: Option<string>, now: Instant, plainToken: string)
    : (o: Outcome<AuthTokens>)
    ensures projectId !in db.projects ==> o == Outcome(Failure(ProjectNotFound(projectId)), db)
    ensures projectId in db.projects && ExistsByEmail(db.users, email) ==> o == Outcome(Failure(EmailAlreadyUsed), db)
    ensures o.result.Success? <==> projectId in db.projects && !ExistsByEmail(db.users, email)
    ensures o.result.Success? ==>
      var id := |db.users|;
      && o.db.users == db.users + [NewUser(id, email, c.encode(rawPassword))]
      && o.db.memberships == db.memberships + [NewMembership(id, projectId)]
      && o.db.projects == db.projects
      && o.db.tokens == Generated(db.tokens, id, projectId, c.md5Hex(plainToken), userAgent, ipAddress, now)
      && o.result.value == AuthTokens(c.issue(id, email, projectId, ["USER"]), Some(plainToken))
  {
    if projectId !in db.projects then Outcome(Failure(ProjectNotFound(projectId)), db)
    else if ExistsByEmail(db.users, email) then Outcome(Failure(EmailAlreadyUsed), db)
    else
      var user := NewUser(|db.users|, email, c.encode(rawPassword));
      var membership := NewMembership(user.id, projectId);
      var roles := [membership.role.Name()];
      var accessToken := c.issue(user.id, user.email, projectId, roles);
      var tokens := Generated(db.tokens, user.id, projectId, c.md5Hex(plainToken), userAgent, ipAddress, now);
      Outcome(Success(AuthTokens(accessToken, Some(plainToken))),
              Db(db.users + [user], db.projects, db.memberships + [membership], tokens))
  }

  /** The credential check of `login`: a user with the email whose stored
      hash matches the raw password. */
  predicate CredentialsMatch(db: Db, c: Collaborators, email: string, rawPassword: string) {
    var found := FindByEmail(db.users, email);
    found.Some? && c.matches(rawPassword, db.users[found.value].passwordHash)
  }

  /** `login`: credentials first (one error for an unknown email and for a
      wrong password), then the project, then the membership. The account
      flags `active`, `locked` and `deleted` are not consulted. On success
      `lastLoginAt` is stamped and a token pair is issued with the
      membership's role. No failure changes anything. */
  function LoginOutcome(db: Db, c: Collaborators, email: string, rawPassword: string, projectId: ProjectId,
                        userAgent: Option<string>, ipAddress: Option<string>, now: Instant, plainToken: string)
    : (o: Outcome<AuthTokens>)
    ensures o.result.Failure? ==> o.db == db
    ensures !CredentialsMatch(db, c, email, rawPassword) <==> o.result == Failure(InvalidCredentials)
    ensures CredentialsMatch(db, c, email, rawPassword) && projectId !in db.projects ==>
      o.result == Failure(ProjectNotFound(projectId))
    ensures CredentialsMatch(db, c, email, rawPassword) && projectId in db.projects ==>
      var user := db.users[FindByEmail(db.users, email).value];
      (o.result == Failure(ProjectAccessDenied(projectId)) <==> FindByUserAndProject(db.memberships, user.id, projectId).None?)
    ensures o.result.Success? <==>
      (&& CredentialsMatch(db, c, email, rawPassword)
       && projectId in db.projects
       && FindByUserAndProject(db.memberships, db.users[FindByEmail(db.users, email).value].id, projectId).Some?)
    ensures o.result.Success? ==>
      var i := FindByEmail(db.users, email).value;
      var user := db.users[i];
      var membership := FindByUserAndProject(db.memberships, user.id, projectId);
      && projectId in db.projects && membership.Some?
      && o.db.users == db.users[i := user.(lastLoginAt := Some(now))]
      && o.db.projects == db.projects && o.db.memberships == db.memberships
      && o.db.tokens == Generated(db.tokens, user.id, projectId, c.md5Hex(plainToken), userAgent, ipAddress, now)
      && o.result.value == AuthTokens(c.issue(user.id, email, projectId, [db.memberships[membership.value].role.Name()]),
                                      Some(plainToken))
  {
    match FindByEmail(db.users, email)
    case None => Outcome(Failure(InvalidCredentials), db)
    case Some(i) =>
      var user := db.users[i];
      if !c.matches(rawPassword, user.passwordHash) then Outcome(Failure(InvalidCredentials), db)
      else if projectId !in db.projects then Outcome(Failure(ProjectNotFound(projectId)), db)
      else match FindByUserAndProject(db.memberships, user.id, projectId)
        case None => Outcome(Failure(ProjectAccessDenied(projectId)), db)
        case Some(k) =>
          var roles := [db.memberships[k].role.Name()];
          var users := db.users[i := user.(lastLoginAt := Some(now))];
          var accessToken := c.issue(user.id, user.email, projectId, roles);
          var tokens := Generated(db.tokens, user.id, projectId, c.md5Hex(plainToken), userAgent, ipAddress, now);
          Outcome(Success(AuthTokens(accessToken, Some(plainToken))), db.(users := users, tokens := tokens))
  }

  /** `getUserById`: the user with that id, or the generic "User not found"
      failure. */
  function UserById(db: Db, id: Uuid): (r: Result<AuthUser, AuthError>)
    ensures r.Success? ==> r.value.id == id && r.value in db.users
    ensures r.Failure? <==> forall j :: 0 <= j < |db.users| ==> db.users[j].id != id
    ensures r.Failure? ==> r.error == UserNotFound
  {
    match FindUserById(db.users, id)
    case None => Failure(UserNotFound)
    case Some(i) => Success(db.users[i])
  }

  // Properties of the flows.

  lemma RegisterPreservesConsistency(db: Db, c: Collaborators, email: string, rawPassword: string,
                                     projectId: ProjectId, userAgent: Option<string>, ipAddress: Option<string>,
                                     now: Instant, plainToken: string)
    requires Consistent(db) && HashUnused(db.tokens, c.md5Hex(plainToken))
    ensures Consistent(RegisterOutcome(db, c, email, rawPassword, projectId, userAgent, ipAddress, now, plainToken).db)
  {
  }

  lemma LoginPreservesConsistency(db: Db, c: Collaborators, email: string, rawPassword: string,
                                  projectId: ProjectId, userAgent: Option<string>, ipAddress: Option<string>,
                                  now: Instant, plainToken: string)
    requires Consistent(db) && HashUnused(db.tokens, c.md5Hex(plainToken))
    ensures Consistent(LoginOutcome(db, c, email, rawPassword, projectId, userAgent, ipAddress, now, plainToken).db)
  {
  }

  /** The same credentials that registered an account log into it, in the
      project it registered in, with the default role, provided the
      password encoder accepts its own encodings. */
  lemma {:induction false} RegisterThenLogin(db: Db, c: Collaborators, email: string, rawPassword: string,
                                             projectId: ProjectId, userAgent: Option<string>,
                                             ipAddress: Option<string>, now: Instant, plainToken: string,
                                             now2: Instant, plainToken2: string)
    requires Consistent(db)
    requires c.matches(rawPassword, c.encode(rawPassword))
    requires RegisterOutcome(db, c, email, rawPassword, projectId, userAgent, ipAddress, now, plainToken).result.Success?
    ensures var db1 := RegisterOutcome(db, c, email, rawPassword, projectId, userAgent, ipAddress, now, plainToken).db;
      var o := LoginOutcome(db1, c, email, rawPassword, projectId, userAgent, ipAddress, now2, plainToken2);
      && o.result.Success?
      && o.result.value.accessToken == c.issue(|db.users|, email, projectId, ["USER"])
      && o.db.tokens[|db1.tokens|].userId == |db.users|
      && o.db.tokens[|db1.tokens|].projectId == projectId
  {
    var db1 := RegisterOutcome(db, c, email, rawPassword, projectId, userAgent, ipAddress, now, plainToken).db;
    var n := |db.users|;
    assert !ExistsByEmail(db.users, email);
    assert forall j :: 0 <= j < n ==> db1.users[j] == db.users[j] && db1.users[j].email != email;
    assert db1.users[n].email == email;
    assert FindByEmail(db1.users, email) == Some(n);
    var m := |db.memberships|;
    assert forall j :: 0 <= j < m ==> db1.memberships[j] == db.memberships[j] && db1.memberships[j].userId < n;
    assert db1.memberships[m] == NewMembership(n, projectId);
    assert FindByUserAndProject(db1.memberships, n, projectId) == Some(m);
  }

  /** `findByEmail` looks at emails only. */
  lemma FindByEmailSameEmails(u1: seq<AuthUser>, u2: seq<AuthUser>, email: string)
    requires |u1| == |u2| && forall j :: 0 <= j < |u1| ==> u1[j].email == u2[j].email
    ensures FindByEmail(u1, email) == FindByEmail(u2, email)
  {
  }

  /** Login answers the same for every combination of the account flags:
      an inactive, locked or soft-deleted user logs in like any other. */
  lemma {:induction false} LoginIgnoresAccountFlags(db: Db, c: Collaborators, i: nat,
                                                    active: bool, locked: bool, deleted: bool,
                                                    email: string, rawPassword: string, projectId: ProjectId,
                                                    userAgent: Option<string>, ipAddress: Option<string>,
                                                    now: Instant, plainToken: string)
    requires i < |db.users|
    ensures var flagged := db.(users := db.users[i := db.users[i].(active := active, locked := locked, deleted := deleted)]);
      LoginOutcome(flagged, c, email, rawPassword, projectId, userAgent, ipAddress, now, plainToken).result
      == LoginOutcome(db, c, email, rawPassword, projectId, userAgent, ipAddress, now, plainToken).result
  {
    var flagged := db.(users := db.users[i := db.users[i].(active := active, locked := locked, deleted := deleted)]);
    FindByEmailSameEmails(flagged.users, db.users, email);
    var found := FindByEmail(db.users, email);
    if found.Some? {
      var j := found.value;
      assert flagged.users[j].passwordHash == db.users[j].passwordHash;
      assert flagged.users[j].id == db.users[j].id && flagged.users[j].email == db.users[j].email;
    }
  }

  /** The service bean. The three repositories are sequence and set fields;
      the refresh-token service is a separate object it calls. */
  class AuthService {
    var users: seq<AuthUser>
    var projects: set<ProjectId>
    var memberships: seq<AuthUserProjectMembership>
    const encode: string -> string
    const matches: (string, string) -> bool
    /** The `JwtService` bean's `generateAccessToken`. */
    const issue: (Uuid, string, ProjectId, seq<string>) -> string
    const refreshTokenService: RefreshTokenService

    ghost function State(): Db
      reads this, refreshTokenService
    {
      Db(users, projects, memberships, refreshTokenService.repo)
    }

    function Collab(): Collaborators {
      Collaborators(refreshTokenService.md5Hex, encode, matches, issue)
    }

    ghost predicate Valid()
      reads this, refreshTokenService
    {
      refreshTokenService.Valid() && Consistent(State())
    }

    /** Projects are created outside the core; the service starts with the
        project table it is given and no users or memberships. */
    constructor (projects: set<ProjectId>, encode: string -> string, matches: (string, string) -> bool,
                 issue: (Uuid, string, ProjectId, seq<string>) -> string, refreshTokenService: RefreshTokenService)
      requires refreshTokenService.Valid()
      requires forall p :: p in projects ==> |p| <= MAX_PROJECT_ID_LENGTH
      ensures Valid()
      ensures State() == Db([], projects, [], refreshTokenService.repo)
      ensures Collab() == Collaborators(refreshTokenService.md5Hex, encode, matches, issue)
    {
      users, this.projects, memberships := [], projects, [];
      this.encode, this.matches, this.issue := encode, matches, issue;
      this.refreshTokenService := refreshTokenService;
    }

    method Register(email: string, rawPassword: string, projectId: ProjectId,
                    userAgent: Option<string>, ipAddress: Option<string>, now: Instant, plainToken: string)
      returns (r: Result<AuthTokens, AuthError>)
      requires Valid() && HashUnused(refreshTokenService.repo, refreshTokenService.md5Hex(plainToken))
      modifies this, refreshTokenService
      ensures Valid()
      ensures Outcome(r, State()) ==
        RegisterOutcome(old(State()), Collab(), email, rawPassword, projectId, userAgent, ipAddress, now, plainToken)
    {
      RegisterPreservesConsistency(State(), Collab(), email, rawPassword, projectId, userAgent, ipAddress, now, plainToken);
      if projectId !in projects {
        return Failure(ProjectNotFound(projectId));
      }
      if ExistsByEmail(users, email) {
        return Failure(EmailAlreadyUsed);
      }
      var user := NewUser(|users|, email, encode(rawPassword));
      users := users + [user];
      var membership := NewMembership(user.id, projectId);
      memberships := memberships + [membership];
      var roles := [membership.role.Name()];
      var accessToken := issue(user.id, user.email, projectId, roles);
      var refreshToken := refreshTokenService.GenerateAndStore(user.id, projectId, userAgent, ipAddress, now, plainToken);
      r := Success(AuthTokens(accessToken, Some(refreshToken)));
    }

    method Login(email: string, rawPassword: string, projectId: ProjectId,
                 userAgent: Option<string>, ipAddress: Option<string>, now: Instant, plainToken: string)
      returns (r: Result<AuthTokens, AuthError>)
      requires Valid() && HashUnused(refreshTokenService.repo, refreshTokenService.md5Hex(plainToken))
      modifies this, refreshTokenService
      ensures Valid()
      ensures Outcome(r, State()) ==
        LoginOutcome(old(State()), Collab(), email, rawPassword, projectId, userAgent, ipAddress, now, plainToken)
    {
      LoginPreservesConsistency(State(), Collab(), email, rawPassword, projectId, userAgent, ipAddress, now, plainToken);
      var found := FindByEmail(users, email);
      if found.None? {
        return Failure(InvalidCredentials);
      }
      var user := users[found.value];
      if !matches(rawPassword, user.passwordHash) {
        return Failure(InvalidCredentials);
      }
      if projectId !in projects {
        return Failure(ProjectNotFound(projectId));
      }
      var membership := FindByUserAndProject(memberships, user.id, projectId);
      if membership.None? {
        return Failure(ProjectAccessDenied(projectId));
      }
      var roles := [memberships[membership.value].role.Name()];
      user := user.(lastLoginAt := Some(now));
      users := users[found.value := user];
      var accessToken := issue(user.id, user.email, projectId, roles);
      var refreshToken := refreshTokenService.GenerateAndStore(user.id, projectId, userAgent, ipAddress, now, plainToken);
      r := Success(AuthTokens(accessToken, Some(refreshToken)));
    }

    method GetUserById(id: Uuid) returns (r: Result<AuthUser, AuthError>)
      ensures r == UserById(State(), id)
      ensures r.Success? ==> r.value.id == id
    {
      var found := FindUserById(users, id);
      if found.None? {
        return Failure(UserNotFound);
      }
      r := Success(users[found.value]);
    }
  }
}
