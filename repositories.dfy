/** The derived queries of the Spring Data repositories (`findByEmail`,
    `existsByEmail`, `findById`, `findByUserAndProject`, `findByTokenHash`)
    over tables modelled as sequences. Each query answers the index of the
    first matching row, or `None`. */
module Repositories {
  import opened Wrappers
  import opened Entities

  /** The index of the first element of `s` that satisfies `p`. */
  function Find<T>(s: seq<T>, p: T -> bool): (r: Option<nat>)
    ensures r.Some? ==> r.value < |s| && p(s[r.value])
    ensures r.Some? ==> forall j :: 0 <= j < r.value ==> !p(s[j])
    ensures r.None? ==> forall j :: 0 <= j < |s| ==> !p(s[j])
  {
    if |s| == 0 then None
    else if p(s[0]) then Some(0)
    else match Find(s[1..], p)
      case None => None
      case Some(k) => Some(k + 1)
  }

  function FindByEmail(users: seq<AuthUser>, email: string): (r: Option<nat>)
    ensures r.Some? ==> r.value < |users| && users[r.value].email == email
    ensures r.Some? ==> forall j :: 0 <= j < r.value ==> users[j].email != email
    ensures r.None? <==> forall j :: 0 <= j < |users| ==> users[j].email != email
  {
    Find(users, (u: AuthUser) => u.email == email)
  }

  /** `existsByEmail` answers true exactly when `findByEmail` finds a user. */
  predicate ExistsByEmail(users: seq<AuthUser>, email: string)
    ensures ExistsByEmail(users, email) <==> FindByEmail(users, email).Some?
  {
    exists j :: 0 <= j < |users| && users[j].email == email
  }

  function FindUserById(users: seq<AuthUser>, id: Uuid): (r: Option<nat>)
    ensures r.Some? ==> r.value < |users| && users[r.value].id == id
    ensures r.None? <==> forall j :: 0 <= j < |users| ==> users[j].id != id
  {
    Find(users, (u: AuthUser) => u.id == id)
  }

  function FindByUserAndProject(memberships: seq<AuthUserProjectMembership>, userId: Uuid, projectId: ProjectId)
    : (r: Option<nat>)
    ensures r.Some? ==> r.value < |memberships|
    ensures r.Some? ==> memberships[r.value].userId == userId && memberships[r.value].projectId == projectId
    ensures r.None? <==> forall j :: 0 <= j < |memberships| ==>
      memberships[j].userId != userId || memberships[j].projectId != projectId
  {
    Find(memberships, (m: AuthUserProjectMembership) => m.userId == userId && m.projectId == projectId)
  }

  function FindByTokenHash(tokens: seq<AuthRefreshToken>, tokenHash: string): (r: Option<nat>)
    ensures r.Some? ==> r.value < |tokens| && tokens[r.value].tokenHash == tokenHash
    ensures r.Some? ==> forall j :: 0 <= j < r.value ==> tokens[j].tokenHash != tokenHash
    ensures r.None? <==> forall j :: 0 <= j < |tokens| ==> tokens[j].tokenHash != tokenHash
  {
    Find(tokens, (rt: AuthRefreshToken) => rt.tokenHash == tokenHash)
  }

  /** Under the unique-email constraint `findByEmail` answers the one user
      with that email. */
  lemma FindByEmailUnique(users: seq<AuthUser>, i: nat)
    requires UniqueEmails(users) && i < |users|
    ensures FindByEmail(users, users[i].email) == Some(i)
  {
  }

  /** Under `uk_user_project` the membership found is the only one of the pair. */
  lemma FindByUserAndProjectUnique(memberships: seq<AuthUserProjectMembership>, i: nat)
    requires UniqueMemberships(memberships) && i < |memberships|
    ensures FindByUserAndProject(memberships, memberships[i].userId, memberships[i].projectId) == Some(i)
  {
  }

  /** With generated ids, `findById` answers the row at that index. */
  lemma FindUserByIdIsIndex(users: seq<AuthUser>, id: Uuid)
    requires UserIdsAreIndices(users)
    ensures FindUserById(users, id) == if id < |users| then Some(id) else None
  {
    var r := FindUserById(users, id);
    if id < |users| {
      assert users[id].id == id;
    }
  }
}
