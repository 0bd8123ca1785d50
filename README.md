# Session core of a multi-tenant auth service

This project is a Dafny model of the session core of `auth-service`, a Spring
service that authenticates users per project (tenant). Its parts:

- `register` and `login` each issue an access token and a refresh token,
  both bound to one project.
- `refresh` rotates a refresh token. It finds the record by the MD5 hex
  digest of the cookie's value and consumes it (single use). It then issues
  a new access token and a new refresh token for the same user and project.
- `revokeAll` revokes every refresh token of a user.
- `GlobalExceptionHandler` turns each exception into an HTTP status and an
  `ApiResponse` error envelope.

Modules, one per part of the program:

| file | module | models |
|---|---|---|
| `wrappers.dfy` | `Wrappers` | `Option` and `Result` |
| `entities.dfy` | `Entities` | `AuthUser`, `AuthRefreshToken`, `AuthUserProjectMembership`, their defaults and table constraints |
| `repositories.dfy` | `Repositories` | the derived repository queries, over tables held as sequences |
| `errors.dfy` | `Errors` | the exceptions of the core and their messages |
| `api_response.dfy` | `Responses` | `ApiResponse.ok` and `ApiResponse.error` |
| `exception_handler.dfy` | `ErrorHandling` | `GlobalExceptionHandler` |
| `refresh_token_service.dfy` | `RefreshTokens` | `RefreshTokenService` |
| `auth_service.dfy` | `Auth` | `AuthService` |
| `auth_controller.dfy` | `Endpoints` | `AuthController` |

`RefreshTokenService` and `AuthService` are classes whose fields are the
tables they change: `seq` for the user, membership and refresh-token
tables, a `set` for the project ids. `AuthController` is a class holding
the two services, and it reaches the tables through them. Each state-changing method is proved to compute exactly what a
pure function computes from the old tables. Examples are
`RefreshTokens.Consumed`, `Auth.LoginOutcome` and `Endpoints.RefreshOutcome`.
The properties of the flows are lemmas about those functions:

- a token is single use;
- revocation is permanent;
- refresh is fail-closed;
- refresh keeps the tenant;
- a replayed token is refused;
- rotation chains;
- the database constraints are preserved;
- a registered account can log in.

Error paths are `Result` values carrying an `AuthError`, never
preconditions. A database id is the row's index in its table.

Collaborators the core calls but does not define are uninterpreted function
values, fixed when a service is built:

- `md5Hex`: the digest;
- `encode` and `matches`: the password encoder;
- `issue`: `JwtService.generateAccessToken`.

The clock and the random plaintext of a new refresh token are parameters:
`now` and `plainToken`.

Two places where the model follows the code rather than the design
description of the service:

- The design says every refresh rejection looks the same to a client. In
  the code, each check throws `InvalidRefreshTokenException` with its own
  message, and the handler sends that message back. So the model gives
  `consume`'s three checks and the missing-cookie check four different
  messages under one status and code
  (`ErrorHandling.RefreshRejectionsAreDistinguishable`).
- The design speaks of business failures being mapped to stable codes. But
  `getUserById` throws a plain `RuntimeException`, so during a refresh a
  missing user reaches the fallback handler and becomes a 500
  (`ErrorHandling.HandleAuthError`).

## Model

| member | source | states |
|---|---|---|
| Entities.NewUser | src/main/java/com/roger/auth_service/entity/AuthUser.java:42-67 | a new user has the given email and hash and starts active, unlocked, not deleted, email unverified, never logged in |
| Entities.UserDetailsView | src/main/java/com/roger/auth_service/entity/AuthUser.java:71-115 | enabled iff active and not deleted; non-locked iff not locked; never expired; the user name is the email, the password the hash; no authorities |
| Entities.NewRefreshToken | src/main/java/com/roger/auth_service/entity/AuthRefreshToken.java:22-50 | a new refresh-token record carries the given owner, project, hash, expiry and client data, and is neither revoked nor stamped |
| Entities.NewMembership | src/main/java/com/roger/auth_service/entity/AuthUserProjectMembership.java:40-42 | a new membership has role `USER`, stored and claimed under the name "USER" |
| Repositories.FindByEmail | src/main/java/com/roger/auth_service/repo/AuthUserRepository.java:10 | the answer is a user with that email and no earlier one has it; `None` iff no user has it |
| Repositories.ExistsByEmail | src/main/java/com/roger/auth_service/repo/AuthUserRepository.java:12 | `existsByEmail` is true exactly when `findByEmail` finds a user |
| Repositories.FindUserById | src/main/java/com/roger/auth_service/repo/AuthUserRepository.java:9 | the answer is a user with that id; `None` iff no user has it |
| Repositories.FindByUserAndProject | src/main/java/com/roger/auth_service/repo/AuthUserProjectMembershipRepository.java:14 | the answer is a membership of that user in that project; `None` iff there is none |
| Repositories.FindByTokenHash | src/main/java/com/roger/auth_service/repo/AuthRefreshTokenRepository.java:11 | the answer is a record with that hash and no earlier one has it; `None` iff no record has it |
| Repositories.FindByEmailUnique | src/main/java/com/roger/auth_service/entity/AuthUser.java:25-27 | under the unique-email constraint the lookup by a user's email finds exactly that user |
| Repositories.FindByUserAndProjectUnique | src/main/java/com/roger/auth_service/entity/AuthUserProjectMembership.java:16-21 | under `uk_user_project` the lookup of a membership's pair finds exactly that membership |
| Repositories.FindUserByIdIsIndex | src/main/java/com/roger/auth_service/entity/AuthUser.java:33-37 | with generated ids, the lookup by id finds the row with that id exactly when it exists |
| Errors.AuthError.Message | src/main/java/com/roger/auth_service/exception/ProjectNotFoundException.java:4-6 | each error carries the text its exception class passes to `RuntimeException`: "Project not found: " followed by the project id here, and likewise "User has no access to project: " plus the id, "Invalid email or password", "Email already used", "User not found", and a refresh rejection's own reason |
| Errors.MessageIdentifiesError | src/main/java/com/roger/auth_service/exception/ProjectNotFoundException.java:4-6 | apart from refresh rejections, two errors with the same message are the same error, project id included |
| Responses.Ok | src/main/java/com/roger/auth_service/dto/ApiResponse.java:14-21 | success envelope: code "OK", message "Success", the data, no details |
| Responses.Error | src/main/java/com/roger/auth_service/dto/ApiResponse.java:23-30 | error envelope: not successful, the given code, message and details, no data |
| Responses.FactoriesAreInjective | src/main/java/com/roger/auth_service/dto/ApiResponse.java:14-30 | both factories keep their arguments: equal envelopes come from equal arguments |
| ErrorHandling.HandleMethodNotSupported | src/main/java/com/roger/auth_service/exception/GlobalExceptionHandler.java:23-47 | 405 METHOD_NOT_ALLOWED; the details hold the method, and hold the supported methods exactly when the framework knows them |
| ErrorHandling.HandleMessageNotReadable | src/main/java/com/roger/auth_service/exception/GlobalExceptionHandler.java:50-58 | 400 BAD_REQUEST_BODY with its fixed message and no details |
| ErrorHandling.HandleValidation | src/main/java/com/roger/auth_service/exception/GlobalExceptionHandler.java:61-75 | 400 VALIDATION_ERROR; the details' keys are exactly the failed fields, and each field maps to the message of its last error |
| ErrorHandling.HandleConstraintViolation | src/main/java/com/roger/auth_service/exception/GlobalExceptionHandler.java:78-85 | 400 CONSTRAINT_VIOLATION; the details are the exception's message |
| ErrorHandling.HandleAuthError | src/main/java/com/roger/auth_service/exception/GlobalExceptionHandler.java:88-141 | 401/404/403/409/401 with the matching code for the five business exceptions, their own message passed through; "User not found" falls to the 500 fallback |
| ErrorHandling.HandleAny | src/main/java/com/roger/auth_service/exception/GlobalExceptionHandler.java:144-153 | 500 INTERNAL_ERROR with a fixed message, whatever the exception said |
| ErrorHandling.FieldMessagesUnique | src/main/java/com/roger/auth_service/exception/GlobalExceptionHandler.java:61-75 | the field errors determine the validation details: only one map has the failed fields as keys, each mapped to its last message |
| ErrorHandling.Handle | src/main/java/com/roger/auth_service/exception/GlobalExceptionHandler.java:20-154 | every exception gets an error envelope with a 4xx/5xx status, and exactly the response of the handler for its class: method-not-supported, unreadable body, validation (400 VALIDATION_ERROR with the field-message map), constraint violation, the business handlers, and the 500 fallback |
| ErrorHandling.RefreshRejectionsAreDistinguishable | src/main/java/com/roger/auth_service/exception/GlobalExceptionHandler.java:131-141 | refresh rejections with different reasons share status and code but are different responses |
| RefreshTokens.Generated | src/main/java/com/roger/auth_service/service/RefreshTokenService.java:24-40 | one record is appended, the old ones are unchanged; it expires thirty days after now and is redeemable for its project until then; a fresh hash finds it and leaves other lookups unchanged; the table invariant is kept |
| RefreshTokens.Consumed | src/main/java/com/roger/auth_service/service/RefreshTokenService.java:42-62 | success iff the hash is stored and its record matches the project and is neither revoked nor expired; success revokes exactly that record and stamps it with now; failure changes nothing; no grant field changes and no revocation is undone |
| RefreshTokens.RevokedAll | src/main/java/com/roger/auth_service/service/RefreshTokenService.java:65-72 | a record ends revoked iff it was revoked or belongs to the user; `revokedAt` is not touched; other users' records are unchanged |
| RefreshTokens.ConsumeChecksInOrder | src/main/java/com/roger/auth_service/service/RefreshTokenService.java:45-54 | unknown hash, then wrong project, then revoked or expired, each with its own message |
| RefreshTokens.GeneratedTokenRedeems | src/main/java/com/roger/auth_service/service/RefreshTokenService.java:22-54 | a freshly stored token is consumed for its project at any time up to and including its expiry, yielding its own record |
| RefreshTokens.ConsumeIsSingleUse | src/main/java/com/roger/auth_service/service/RefreshTokenService.java:52-59 | once consumed, a token fails every later consume, whatever the project and time |
| RefreshTokens.RevocationIsPermanent | src/main/java/com/roger/auth_service/service/RefreshTokenService.java:42-72 | a revoked record stays revoked through consume, generate and revokeAll |
| RefreshTokens.RevokeAllBlocksConsume | src/main/java/com/roger/auth_service/service/RefreshTokenService.java:65-72 | after revoking a user's tokens, consuming one fails as revoked, or as foreign when the project differs |
| RefreshTokens.RevokeAllIdempotent | src/main/java/com/roger/auth_service/service/RefreshTokenService.java:65-72 | revoking a user's tokens twice equals revoking them once |
| RefreshTokens.RefreshTokenService.constructor | src/main/java/com/roger/auth_service/service/RefreshTokenService.java:18-20 | the service starts over an empty, well-formed table |
| RefreshTokens.RefreshTokenService.GenerateAndStore | src/main/java/com/roger/auth_service/service/RefreshTokenService.java:24-40 | returns the plaintext; the new table is the generated one; the invariant is kept |
| RefreshTokens.RefreshTokenService.Consume | src/main/java/com/roger/auth_service/service/RefreshTokenService.java:42-62 | result and new table are those of the consumption by the plaintext's hash; the invariant is kept |
| RefreshTokens.RefreshTokenService.RevokeAll | src/main/java/com/roger/auth_service/service/RefreshTokenService.java:65-72 | the walk over the table leaves it revoked for the user as specified; the invariant is kept |
| Auth.RegisterOutcome | src/main/java/com/roger/auth_service/service/AuthService.java:36-82 | project missing, then email taken, each changing nothing; otherwise one user, one USER membership and one refresh record are added and the tokens are issued for the new id, email, project and role USER |
| Auth.LoginOutcome | src/main/java/com/roger/auth_service/service/AuthService.java:84-121 | one error for unknown email and wrong password; then project missing; then no membership; no failure changes anything; success happens exactly when the credentials match, the project exists and the user is a member of it; success stamps `lastLoginAt` and issues tokens with the membership's role |
| Auth.UserById | src/main/java/com/roger/auth_service/service/AuthService.java:124-127 | the user with that id, or "User not found" exactly when there is none |
| Auth.RegisterPreservesConsistency | src/main/java/com/roger/auth_service/service/AuthService.java:36-82 | register keeps ids, unique emails, unique memberships, the user and project foreign keys of memberships, and the token table well formed |
| Auth.LoginPreservesConsistency | src/main/java/com/roger/auth_service/service/AuthService.java:84-121 | login keeps the same constraints: ids, unique emails, unique memberships, both membership foreign keys, a well-formed token table |
| Auth.RegisterThenLogin | src/main/java/com/roger/auth_service/service/AuthService.java:36-121 | after a registration the same credentials log in to that project, with role USER, and the refresh record binds the new user and the project |
| Auth.LoginIgnoresAccountFlags | src/main/java/com/roger/auth_service/service/AuthService.java:90-102 | the login result does not depend on `active`, `locked` or `deleted` |
| Auth.AuthService.constructor | src/main/java/com/roger/auth_service/service/AuthService.java:26-33 | starts with the given projects, no users or memberships, and the given collaborators |
| Auth.AuthService.Register | src/main/java/com/roger/auth_service/service/AuthService.java:36-82 | result and new tables are those of `RegisterOutcome`; the constraints are kept |
| Auth.AuthService.Login | src/main/java/com/roger/auth_service/service/AuthService.java:84-121 | result and new tables are those of `LoginOutcome`; the constraints are kept |
| Auth.AuthService.GetUserById | src/main/java/com/roger/auth_service/service/AuthService.java:124-127 | the answer is that of `UserById` and carries the id asked for |
| Endpoints.RefreshCookie | src/main/java/com/roger/auth_service/controller/AuthController.java:116-122 | cookie `refresh_token`: HTTP-only, secure, SameSite Lax, path `/auth`, max age equal to the refresh-token validity |
| Endpoints.RefreshCookiePathOutsideMapping | src/main/java/com/roger/auth_service/controller/AuthController.java:31 | by the path-match rule of RFC 6265, a cookie with path `/auth` is not sent to `/v1/auth/refresh`; one with path `/v1/auth` would be |
| Endpoints.Delegated | src/main/java/com/roger/auth_service/controller/AuthController.java:41-73 | a service failure propagates unchanged; a success is exactly a 200 reply with `ApiResponse.ok` of the tokens and no cookie |
| Endpoints.RefreshOutcome | src/main/java/com/roger/auth_service/controller/AuthController.java:80-130 | success happens exactly when the cookie is present and not blank, the consume succeeds, and the token's user, the project and the membership exist; a missing or blank cookie changes nothing; a failed consume changes nothing; then user missing, project missing, no membership, in that order, each leaving the old token consumed; success stores a refresh record for the user and the requested project and replies 200 with the new access token in the body, no refresh token in the body, and the new one in the cookie |
| Endpoints.RefreshPreservesConsistency | src/main/java/com/roger/auth_service/controller/AuthController.java:80-130 | refresh keeps the same constraints: ids, unique emails, unique memberships, both membership foreign keys, a well-formed token table |
| Endpoints.RefreshKeepsTenantAndUser | src/main/java/com/roger/auth_service/controller/AuthController.java:91-114 | the new refresh record belongs to the consumed record's user and to its project, which is the requested one, and is active |
| Endpoints.RefreshFailsClosed | src/main/java/com/roger/auth_service/controller/AuthController.java:91-101 | when a lookup after the consume fails, the presented token ends revoked and no new record is stored |
| Endpoints.RefreshReplayFails | src/main/java/com/roger/auth_service/controller/AuthController.java:91 | a cookie that refreshed once is refused on any later refresh, and the refusal changes nothing |
| Endpoints.RotatedTokenRefreshes | src/main/java/com/roger/auth_service/controller/AuthController.java:110-122 | the token a refresh sets in the cookie refreshes again for that project until it expires |
| Endpoints.RevokeAllBlocksRefresh | src/main/java/com/roger/auth_service/service/RefreshTokenService.java:65-72 | after `revokeAll` for a user, a refresh with any of that user's tokens is refused and changes nothing |
| Endpoints.LoginTokenRefusedForOtherProject | src/main/java/com/roger/auth_service/controller/AuthController.java:91 | a refresh token from a login in one project is refused as foreign for any other project, and nothing changes |
| Endpoints.AuthController.constructor | src/main/java/com/roger/auth_service/controller/AuthController.java:35-39 | the controller shares its refresh-token service with the auth service |
| Endpoints.AuthController.Register | src/main/java/com/roger/auth_service/controller/AuthController.java:41-56 | the reply is the delegation of `RegisterOutcome`; the tables are the ones it leaves |
| Endpoints.AuthController.Login | src/main/java/com/roger/auth_service/controller/AuthController.java:58-73 | the reply is the delegation of `LoginOutcome`; the tables are the ones it leaves |
| Endpoints.AuthController.Refresh | src/main/java/com/roger/auth_service/controller/AuthController.java:80-130 | reply and new tables are those of `RefreshOutcome`; the constraints are kept |

## Left out

- Concurrency and transactions are not modelled. Each flow runs atomically
  over the tables, so two parallel refreshes with one cookie are not
  covered.
- `JwtService`, `DigestUtils.md5DigestAsHex` and the `PasswordEncoder` are
  uninterpreted functions. Token content, signing, hashing and password
  matching are not modelled. `RegisterThenLogin` assumes that the encoder
  accepts its own encodings.
- `UUID.randomUUID` is not modelled. The plaintext of a new refresh token
  is a parameter. A precondition that its digest is not yet stored stands
  for the randomness, so the model does not cover digest collisions.
- `Instant.now()` is a single parameter `now` per request. The source
  reads the clock several times within one request.
- Time is whole seconds; sub-second precision of `Instant` is not modelled.
- Database ids are table indices, not random UUIDs.
- Null request fields are not modelled. A `User-Agent` header or client IP
  that may be absent is an `Option`.
- The `length = 320` bound on the email column is not modelled. Only the
  64-character bound on project ids is kept.
- `createdAt` and `updatedAt` are not modelled. Neither are the membership's
  own id, nor project fields other than the id.
- ProjectRole.java is not part of this model. The role is `USER` or a role
  named by its string.
- InvalidRefreshTokenException.java, RefreshRequestDTO.java and the
  `@ClientIp` resolver are not part of this model. Their behaviour is taken
  from the call sites: a message, a project id, and an optional string.
- `/me` is not modelled. The authenticated principal comes from a security
  filter outside the core.
- HTTP framing and DTO bean validation are not modelled. The model does not
  cover the serialisation of the `Set-Cookie` header, or which DTO
  constraints raise `MethodArgumentNotValidException`.
- Logging is left out.
- ErrorHandling.HandleMethodNotSupported: the list of supported methods
  keeps the order it is given in, not the iteration order of a `HashSet`.
- IsWhitespace does not model Unicode version differences. It lists the
  space, line and paragraph separators of current Unicode, as
  `Character.isWhitespace` does.
