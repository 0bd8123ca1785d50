/** The three persistent entities of the session core (`AuthUser`,
    `AuthRefreshToken`, `AuthUserProjectMembership`), their defaults, the
    `UserDetails` view of a user, and the table constraints the database
    enforces on them. */
module Entities {
  import opened Wrappers

  /** Identifiers the database generates (UUIDs in the source). The model
      hands them out in insertion order: the i-th row of a table has id i. */
  type Uuid = nat

  /** A point on the server clock, in seconds. */
  type Instant = int

  /** A project (tenant) id: a human-chosen slug. */
  type ProjectId = string

  /** Column length of `auth_refresh_token.project_id`. */
  const MAX_PROJECT_ID_LENGTH: nat := 64

  /** Roles a user can hold in a project. Only `USER` is named by the core;
      every other constant of the role enumeration is an `OtherRole`
      carrying the name it is stored under. */
  datatype ProjectRole = USER | OtherRole(roleName: string) {
    /** `Enum.name()`, the string stored in the role column and put in the
        `roles` claim. */
    function Name(): string {
      match this
      case USER => "USER"
      case OtherRole(n) => n
    }
  }

  /** A row of `auth_user`. Creation and update timestamps are left to the
      database and are not modelled. */
  datatype AuthUser = AuthUser(
    id: Uuid,
    email: string,
    emailVerified: bool,
    passwordHash: string,
    active: bool,
    locked: bool,
    lastLoginAt: Option<Instant>,
    deleted: bool)
  {
    // The `UserDetails` adapter of the user entity.

    /** Disabled when inactive or soft-deleted. */
    predicate IsEnabled() { active && !deleted }

    predicate IsAccountNonLocked() { !locked }

    /** There is no separate account expiry. */
    predicate IsAccountNonExpired() { true }

    predicate IsCredentialsNonExpired() { true }

    /** The email is the user name. */
    function Username(): string { email }

    function Password(): string { passwordHash }

    /** Project roles travel in memberships and access tokens, never as
        authorities of the principal. */
    function Authorities(): seq<string> { [] }
  }

  /** A user as `new AuthUser()` followed by `setEmail` and
      `setPasswordHash` creates it, with its field defaults. */
  function NewUser(id: Uuid, email: string, passwordHash: string): (u: AuthUser)
    ensures u.id == id && u.email == email && u.passwordHash == passwordHash
    ensures u.IsEnabled() && u.IsAccountNonLocked() && !u.locked && !u.deleted
    ensures !u.emailVerified && u.lastLoginAt.None?
  {
    AuthUser(id, email, false, passwordHash, true, false, None, false)
  }

  /** What the `UserDetails` methods of a user answer, for every user. */
  lemma UserDetailsView(u: AuthUser)
    ensures u.IsEnabled() <==> u.active && !u.deleted
    ensures u.IsAccountNonLocked() <==> !u.locked
    ensures u.IsAccountNonExpired() && u.IsCredentialsNonExpired()
    ensures u.Username() == u.email && u.Password() == u.passwordHash
    ensures u.Authorities() == []
  {
  }

  /** A row of `auth_refresh_token`. Mandatory columns are plain fields;
      nullable ones are options. The plaintext token is never stored, only
      its hash. The creation timestamp is not modelled. */
  datatype AuthRefreshToken = AuthRefreshToken(
    id: Uuid,
    userId: Uuid,
    projectId: ProjectId,
    tokenHash: string,
    expiresAt: Instant,
    revoked: bool,
    revokedAt: Option<Instant>,
    userAgent: Option<string>,
    ipAddress: Option<string>)

  /** A refresh-token record as `new AuthRefreshToken()` and its setters
      create it: not revoked, no revocation time. */
  function NewRefreshToken(id: Uuid, userId: Uuid, projectId: ProjectId, tokenHash: string,
                           expiresAt: Instant, userAgent: Option<string>, ipAddress: Option<string>)
    : (rt: AuthRefreshToken)
    ensures rt.id == id && rt.userId == userId && rt.projectId == projectId
    ensures rt.tokenHash == tokenHash && rt.expiresAt == expiresAt
    ensures !rt.revoked && rt.revokedAt.None?
    ensures rt.userAgent == userAgent && rt.ipAddress == ipAddress
  {
    AuthRefreshToken(id, userId, projectId, tokenHash, expiresAt, false, None, userAgent, ipAddress)
  }

  /** A row of `auth_user_project_membership`: the user's role in one project.
      Its own id and timestamps are not modelled. */
  datatype AuthUserProjectMembership = AuthUserProjectMembership(
    userId: Uuid,
    projectId: ProjectId,
    role: ProjectRole)

  /** A membership as `new AuthUserProjectMembership()` creates it once user
      and project are set: the role defaults to `USER`. */
  function NewMembership(userId: Uuid, projectId: ProjectId): (m: AuthUserProjectMembership)
    ensures m.userId == userId && m.projectId == projectId
    ensures m.role == USER && m.role.Name() == "USER"
  {
    AuthUserProjectMembership(userId, projectId, USER)
  }

  // Table constraints.

  /** `uk_auth_user_email`: no two users share an email. */
  predicate UniqueEmails(users: seq<AuthUser>) {
    forall i, j :: 0 <= i < j < |users| ==> users[i].email != users[j].email
  }

  /** Generated ids: the i-th user has id i. */
  predicate UserIdsAreIndices(users: seq<AuthUser>) {
    forall i :: 0 <= i < |users| ==> users[i].id == i
  }

  /** `uk_user_project`: at most one membership per (user, project) pair. */
  predicate UniqueMemberships(memberships: seq<AuthUserProjectMembership>) {
    forall i, j :: 0 <= i < j < |memberships| ==>
      memberships[i].userId != memberships[j].userId || memberships[i].projectId != memberships[j].projectId
  }

  /** The `user_id` foreign key: every membership names an existing user. */
  predicate MembershipsReferToUsers(memberships: seq<AuthUserProjectMembership>, userCount: nat) {
    forall i :: 0 <= i < |memberships| ==> memberships[i].userId < userCount
  }

  /** The `project_id` foreign key: every membership names an existing project. */
  predicate MembershipsReferToProjects(memberships: seq<AuthUserProjectMembership>, projects: set<ProjectId>) {
    forall i :: 0 <= i < |memberships| ==> memberships[i].projectId in projects
  }
}
