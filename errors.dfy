/** The exceptions the session core throws, as one datatype. Each
    constructor stands for one exception class; `Message` is the text its
    constructor passes to `RuntimeException`. */
module Errors {

  datatype AuthError =
    | InvalidCredentials
    | ProjectNotFound(projectId: string)
    | ProjectAccessDenied(projectId: string)
    | EmailAlreadyUsed
      /** `InvalidRefreshTokenException`, thrown with a message that names
          the failed check. */
    | InvalidRefreshToken(reason: string)
      /** The plain `RuntimeException("User not found")` of `getUserById`. */
    | UserNotFound
  {
    function Message(): (m: string)
      ensures InvalidCredentials? ==> m == "Invalid email or password"
      ensures ProjectNotFound? ==> m == "Project not found: " + projectId
      ensures ProjectAccessDenied? ==> m == "User has no access to project: " + projectId
      ensures EmailAlreadyUsed? ==> m == "Email already used"
      ensures InvalidRefreshToken? ==> m == reason
      ensures UserNotFound? ==> m == "User not found"
    {
      match this
      case InvalidCredentials => "Invalid email or password"
      case ProjectNotFound(p) => "Project not found: " + p
      case ProjectAccessDenied(p) => "User has no access to project: " + p
      case EmailAlreadyUsed => "Email already used"
      case InvalidRefreshToken(reason) => reason
      case UserNotFound => "User not found"
    }
  }

  /** A client can recover the business error from its message alone: two
      errors other than refresh rejections (whose reason is free text) with
      the same message are the same error, project id included. */
  lemma {:induction false} MessageIdentifiesError(e1: AuthError, e2: AuthError)
    requires !e1.InvalidRefreshToken? && !e2.InvalidRefreshToken?
    requires e1.Message() == e2.Message()
    ensures e1 == e2
  {
    var m1, m2 := e1.Message(), e2.Message();
    // The messages start with 'I', 'P', 'U', 'E' and 'U'; the two that
    // start with 'U' ("User has ...", "User not ...") part at the sixth.
    assert m1[0] == m2[0] && m1[5] == m2[5];
    if e1.ProjectNotFound? && e2.ProjectNotFound? {
      var prefix := "Project not found: ";
      assert m1[|prefix|..] == e1.projectId && m2[|prefix|..] == e2.projectId;
    } else if e1.ProjectAccessDenied? && e2.ProjectAccessDenied? {
      var prefix := "User has no access to project: ";
      assert m1[|prefix|..] == e1.projectId && m2[|prefix|..] == e2.projectId;
    }
  }
}
