/** `RefreshTokenService`: a table of refresh-token records keyed by the MD5
    hex digest of the plaintext handed to the client. Records are created
    active, and are revoked by a successful consumption or by a bulk
    revocation; nothing ever clears the revoked flag. */
module RefreshTokens {
  import opened Wrappers
  import opened Entities
  import opened Repositories
  import opened Errors

  /** Thirty days, in seconds. */
  const REFRESH_TOKEN_VALIDITY_SECONDS: int := 60 * 60 * 24 * 30

  // The three messages `consume` throws `InvalidRefreshTokenException` with.
  const UNKNOWN_TOKEN := "Invalid refresh token"
  const OTHER_PROJECT := "Refresh token belongs to a different project"
  const EXPIRED_OR_REVOKED := "Refresh token expired or revoked"

  /** The table invariant: generated ids, at most one record per hash (so
      `findByTokenHash` has at most one answer), project ids within their
      column length. */
  predicate WellFormed(tokens: seq<AuthRefreshToken>) {
    && (forall i :: 0 <= i < |tokens| ==> tokens[i].id == i)
    && (forall i, j :: 0 <= i < j < |tokens| ==> tokens[i].tokenHash != tokens[j].tokenHash)
    && (forall i :: 0 <= i < |tokens| ==> |tokens[i].projectId| <= MAX_PROJECT_ID_LENGTH)
  }

  /** No stored record has this hash. */
  predicate HashUnused(tokens: seq<AuthRefreshToken>, tokenHash: string) {
    forall i :: 0 <= i < |tokens| ==> tokens[i].tokenHash != tokenHash
  }

  /** A record passes the checks of `consume` for this project at this time:
      same project, not revoked, and not expired. `isBefore` is strict, so a
      record is still good at the very instant it expires. */
  predicate Redeemable(rt: AuthRefreshToken, projectId: ProjectId, now: Instant) {
    rt.projectId == projectId && !rt.revoked && !(rt.expiresAt < now)
  }

  /** Two records agree on everything but the revocation fields. */
  predicate SameGrant(a: AuthRefreshToken, b: AuthRefreshToken) {
    a.id == b.id && a.userId == b.userId && a.projectId == b.projectId && a.tokenHash == b.tokenHash
    && a.expiresAt == b.expiresAt && a.userAgent == b.userAgent && a.ipAddress == b.ipAddress
  }

  lemma FindByTokenHashAfterAppend(tokens: seq<AuthRefreshToken>, rt: AuthRefreshToken, h: string)
    ensures FindByTokenHash(tokens + [rt], h) ==
      if FindByTokenHash(tokens, h).Some? then FindByTokenHash(tokens, h)
      else if rt.tokenHash == h then Some(|tokens|) else None
  {
    var t' := tokens + [rt];
    var r := FindByTokenHash(t', h);
    match FindByTokenHash(tokens, h)
    case Some(k) =>
      assert t'[k] == tokens[k];
      assert forall j :: 0 <= j < k ==> t'[j] == tokens[j];
    case None =>
      assert forall j :: 0 <= j < |tokens| ==> t'[j] == tokens[j];
      assert t'[|tokens|] == rt;
  }

  lemma FindFreshHashAfterAppend(tokens: seq<AuthRefreshToken>, rt: AuthRefreshToken)
    ensures HashUnused(tokens, rt.tokenHash) ==> FindByTokenHash(tokens + [rt], rt.tokenHash) == Some(|tokens|)
    ensures HashUnused(tokens, rt.tokenHash) ==>
      forall h :: h != rt.tokenHash ==> FindByTokenHash(tokens + [rt], h) == FindByTokenHash(tokens, h)
  {
    FindByTokenHashAfterAppend(tokens, rt, rt.tokenHash);
    forall h | h != rt.tokenHash
      ensures FindByTokenHash(tokens + [rt], h) == FindByTokenHash(tokens, h)
    {
      FindByTokenHashAfterAppend(tokens, rt, h);
    }
  }

  /** The table after `generateAndStore`: one new record at the end, with a
      fresh id, the given owner and project, the hash of the plaintext, and
      an expiry thirty days after `now`. */
  function Generated(tokens: seq<AuthRefreshToken>, userId: Uuid, projectId: ProjectId, tokenHash: string,
                     userAgent: Option<string>, ipAddress: Option<string>, now: Instant)
    : (t': seq<AuthRefreshToken>)
    ensures |t'| == |tokens| + 1 && t'[..|tokens|] == tokens
    ensures t'[|tokens|] == NewRefreshToken(|tokens|, userId, projectId, tokenHash,
                                            now + REFRESH_TOKEN_VALIDITY_SECONDS, userAgent, ipAddress)
    ensures forall later :: later <= now + REFRESH_TOKEN_VALIDITY_SECONDS ==> Redeemable(t'[|tokens|], projectId, later)
    ensures HashUnused(tokens, tokenHash) ==> FindByTokenHash(t', tokenHash) == Some(|tokens|)
    ensures HashUnused(tokens, tokenHash) ==> forall h :: h != tokenHash ==> FindByTokenHash(t', h) == FindByTokenHash(tokens, h)
    ensures WellFormed(tokens) && HashUnused(tokens, tokenHash) && |projectId| <= MAX_PROJECT_ID_LENGTH ==> WellFormed(t')
  {
    var rt := NewRefreshToken(|tokens|, userId, projectId, tokenHash,
                              now + REFRESH_TOKEN_VALIDITY_SECONDS, userAgent, ipAddress);
    FindFreshHashAfterAppend(tokens, rt);
    tokens + [rt]
  }

  /** The outcome of `consume`: the result and the table afterwards. */
  datatype Consumption = Consumption(result: Result<AuthRefreshToken, AuthError>, tokens: seq<AuthRefreshToken>)

  /** `consume`: find the record by hash, then check, in this order, that
      it exists, that it belongs to the requested project, and that it is
      neither revoked nor expired. A failure leaves the table as it was; a
      success revokes exactly the record found, stamps `revokedAt`, and
      answers the updated record. */
  function Consumed(tokens: seq<AuthRefreshToken>, tokenHash: string, projectId: ProjectId, now: Instant)
    : (c: Consumption)
    ensures c.result.Failure? ==> c.tokens == tokens && c.result.error.InvalidRefreshToken?
    ensures c.result.Success? <==>
      FindByTokenHash(tokens, tokenHash).Some? && Redeemable(tokens[FindByTokenHash(tokens, tokenHash).value], projectId, now)
    ensures c.result.Success? ==>
      var k := FindByTokenHash(tokens, tokenHash).value;
      && c.result.value == tokens[k].(revoked := true, revokedAt := Some(now))
      && c.tokens == tokens[k := c.result.value]
    ensures c.result.Success? ==>
      c.result.value.tokenHash == tokenHash && c.result.value.projectId == projectId && c.result.value.revoked
    ensures |c.tokens| == |tokens| && forall i :: 0 <= i < |tokens| ==> SameGrant(c.tokens[i], tokens[i])
    ensures forall i :: 0 <= i < |tokens| && tokens[i].revoked ==> c.tokens[i].revoked
    ensures WellFormed(tokens) ==> WellFormed(c.tokens)
  {
    match FindByTokenHash(tokens, tokenHash)
    case None => Consumption(Failure(InvalidRefreshToken(UNKNOWN_TOKEN)), tokens)
    case Some(k) =>
      var rt := tokens[k];
      if rt.projectId != projectId then Consumption(Failure(InvalidRefreshToken(OTHER_PROJECT)), tokens)
      else if rt.revoked || rt.expiresAt < now then Consumption(Failure(InvalidRefreshToken(EXPIRED_OR_REVOKED)), tokens)
      else
        var consumed := rt.(revoked := true, revokedAt := Some(now));
        Consumption(Success(consumed), tokens[k := consumed])
  }

  /** The table after `revokeAll`: every record of the user is revoked, its
      `revokedAt` left as it was; other users' records are untouched. */
  function RevokedAll(tokens: seq<AuthRefreshToken>, userId: Uuid): (t': seq<AuthRefreshToken>)
    ensures |t'| == |tokens|
    ensures forall i :: 0 <= i < |tokens| ==> SameGrant(t'[i], tokens[i]) && t'[i].revokedAt == tokens[i].revokedAt
    ensures forall i :: 0 <= i < |tokens| ==> (t'[i].revoked <==> tokens[i].revoked || tokens[i].userId == userId)
    ensures forall i :: 0 <= i < |tokens| && tokens[i].userId != userId ==> t'[i] == tokens[i]
    ensures WellFormed(tokens) ==> WellFormed(t')
  {
    seq(|tokens|, i requires 0 <= i < |tokens| =>
      if tokens[i].userId == userId then tokens[i].(revoked := true) else tokens[i])
  }

  // Properties of the state machine.

  /** The error ordering of `consume`: unknown hash first, then the project,
      then revocation and expiry. */
  lemma ConsumeChecksInOrder(tokens: seq<AuthRefreshToken>, tokenHash: string, projectId: ProjectId, now: Instant)
    ensures var c := Consumed(tokens, tokenHash, projectId, now);
      match FindByTokenHash(tokens, tokenHash)
      case None => c.result == Failure(InvalidRefreshToken(UNKNOWN_TOKEN))
      case Some(k) =>
        if tokens[k].projectId != projectId then c.result == Failure(InvalidRefreshToken(OTHER_PROJECT))
        else if tokens[k].revoked || tokens[k].expiresAt < now then c.result == Failure(InvalidRefreshToken(EXPIRED_OR_REVOKED))
        else c.result.Success?
  {
  }

  /** The plaintext that `generateAndStore` hands out redeems its record,
      for the same project, until (and including) the expiry instant. */
  lemma GeneratedTokenRedeems(tokens: seq<AuthRefreshToken>, userId: Uuid, projectId: ProjectId,
                              tokenHash: string, userAgent: Option<string>, ipAddress: Option<string>,
                              now: Instant, later: Instant)
    requires HashUnused(tokens, tokenHash)
    requires later <= now + REFRESH_TOKEN_VALIDITY_SECONDS
    ensures var t' := Generated(tokens, userId, projectId, tokenHash, userAgent, ipAddress, now);
      var c := Consumed(t', tokenHash, projectId, later);
      && c.result.Success?
      && c.result.value.userId == userId && c.result.value.id == |tokens|
      && c.result.value.revokedAt == Some(later)
  {
  }

  /** Single use: once a plaintext has been consumed, every later
      consumption of it fails, whatever the project and the time. */
  lemma ConsumeIsSingleUse(tokens: seq<AuthRefreshToken>, tokenHash: string, projectId: ProjectId,
                           now: Instant, projectId2: ProjectId, now2: Instant)
    requires Consumed(tokens, tokenHash, projectId, now).result.Success?
    ensures var t' := Consumed(tokens, tokenHash, projectId, now).tokens;
      Consumed(t', tokenHash, projectId2, now2).result.Failure?
  {
  }

  /** A revoked record stays revoked through any number of further
      consumptions, generations and bulk revocations. */
  lemma RevocationIsPermanent(tokens: seq<AuthRefreshToken>, k: nat, tokenHash: string, projectId: ProjectId,
                              now: Instant, userId: Uuid, owner: Uuid, newHash: string,
                              userAgent: Option<string>, ipAddress: Option<string>)
    requires k < |tokens| && tokens[k].revoked
    ensures Consumed(tokens, tokenHash, projectId, now).tokens[k].revoked
    ensures RevokedAll(tokens, userId)[k].revoked
    ensures Generated(tokens, owner, projectId, newHash, userAgent, ipAddress, now)[k].revoked
  {
  }

  /** After `revokeAll(u)` no record of `u` can be consumed. */
  lemma RevokeAllBlocksConsume(tokens: seq<AuthRefreshToken>, userId: Uuid, tokenHash: string,
                               projectId: ProjectId, now: Instant)
    requires FindByTokenHash(tokens, tokenHash).Some?
    requires tokens[FindByTokenHash(tokens, tokenHash).value].userId == userId
    ensures Consumed(RevokedAll(tokens, userId), tokenHash, projectId, now).result
            == Failure(InvalidRefreshToken(
                 if tokens[FindByTokenHash(tokens, tokenHash).value].projectId == projectId
                 then EXPIRED_OR_REVOKED else OTHER_PROJECT))
  {
  }

  /** `revokeAll` is idempotent. */
  lemma RevokeAllIdempotent(tokens: seq<AuthRefreshToken>, userId: Uuid)
    ensures RevokedAll(RevokedAll(tokens, userId), userId) == RevokedAll(tokens, userId)
  {
  }

  /** The service bean: the repository is a sequence field, the digest a
      function fixed at construction. */
  class RefreshTokenService {
    var repo: seq<AuthRefreshToken>
    /** `DigestUtils.md5DigestAsHex` over the UTF-8 bytes of the plaintext. */
    const md5Hex: string -> string

    ghost predicate Valid()
      reads this
    {
      WellFormed(repo)
    }

    constructor (md5Hex: string -> string)
      ensures Valid() && repo == [] && this.md5Hex == md5Hex
    {
      repo := [];
      this.md5Hex := md5Hex;
    }

    /** Stores a record for `plainToken` (the random value the source draws
        from two UUIDs) and hands the plaintext back. The precondition on
        the hash stands for the randomness of that value. */
    method GenerateAndStore(userId: Uuid, projectId: ProjectId, userAgent: Option<string>, ipAddress: Option<string>,
                            now: Instant, plainToken: string)
      returns (token: string)
      requires Valid() && HashUnused(repo, md5Hex(plainToken)) && |projectId| <= MAX_PROJECT_ID_LENGTH
      modifies this
      ensures Valid() && token == plainToken
      ensures repo == Generated(old(repo), userId, projectId, md5Hex(plainToken), userAgent, ipAddress, now)
    {
      var hashed := md5Hex(plainToken);
      var rt := NewRefreshToken(|repo|, userId, projectId, hashed,
                                now + REFRESH_TOKEN_VALIDITY_SECONDS, userAgent, ipAddress);
      repo := repo + [rt];
      token := plainToken;
    }

    method Consume(plainToken: string, projectId: ProjectId, now: Instant)
      returns (r: Result<AuthRefreshToken, AuthError>)
      requires Valid()
      modifies this
      ensures Valid()
      ensures Consumption(r, repo) == Consumed(old(repo), md5Hex(plainToken), projectId, now)
    {
      var hashed := md5Hex(plainToken);
      var found := FindByTokenHash(repo, hashed);
      if found.None? {
        return Failure(InvalidRefreshToken(UNKNOWN_TOKEN));
      }
      var rt := repo[found.value];
      if rt.projectId != projectId {
        return Failure(InvalidRefreshToken(OTHER_PROJECT));
      }
      if rt.revoked || rt.expiresAt < now {
        return Failure(InvalidRefreshToken(EXPIRED_OR_REVOKED));
      }
      rt := rt.(revoked := true);
      rt := rt.(revokedAt := Some(now));
      repo := repo[found.value := rt];
      r := Success(rt);
    }

    /** Walks all records and revokes those of the user, one save at a time. */
    method RevokeAll(userId: Uuid)
      requires Valid()
      modifies this
      ensures Valid()
      ensures repo == RevokedAll(old(repo), userId)
    {
      ghost var target := RevokedAll(repo, userId);
      var i := 0;
      while i < |repo|
        invariant i <= |repo| == |old(repo)|
        invariant repo[..i] == target[..i]
        invariant repo[i..] == old(repo)[i..]
      {
        if repo[i].userId == userId {
          repo := repo[i := repo[i].(revoked := true)];
        }
        i := i + 1;
      }
      assert repo == repo[..i];
    }
  }
}
