/** RequireAuth and AuthorizeRoles (internal/middleware/auth.go), proved to be the Protocol's gate. */
module Middleware {
  import opened Wrappers
  import opened Errors
  import opened Schema
  import opened Protocol

  /** AuthorizeRoles: the set of allowed roles, then the scan of the user's. */
  method AuthorizeRoles(roles: seq<Role>, userRoles: seq<Role>) returns (ok: bool)
    ensures ok <==> exists role :: role in roles && role in userRoles
  {
    var allowed: set<Role> := {};
    for i := 0 to |roles|
      invariant forall role :: role in allowed <==> role in roles[..i]
    {
      allowed := allowed + {roles[i]};
    }
    assert roles[..|roles|] == roles;
    for i := 0 to |userRoles|
      invariant forall k :: 0 <= k < i ==> userRoles[k] !in allowed
    {
      if userRoles[i] in allowed {
        assert userRoles[i] in roles && userRoles[i] in userRoles;
        return true;
      }
    }
    ok := false;
  }

  /** Both gates in front of a handler: the authenticated user, or the error the client sees. */
  method Admit(c: Config, s: State, cookie: Option<Token>, role: Role) returns (r: Result<Id, Error>)
    ensures r.Success? <==> cookie.Some? && Gate(c, s, cookie.value, role)
    ensures r.Success? ==> r.value == cookie.value.userId
    ensures r.Failure? ==> Classify(r.error) in {401, 403}
    ensures r.Failure? && Classify(r.error) == 403 <==>
            cookie.Some? && cookie.value in s.issued && cookie.value.secret == c.accessSecret && role !in cookie.value.roles
  {
    if cookie.None? {
      return Failure(App(MissingAccessToken));
    }
    var token := cookie.value;
    if token !in s.issued || token.secret != c.accessSecret {
      return Failure(App(InvalidAccessToken));
    }
    var ok := AuthorizeRoles([role], token.roles);
    if !ok {
      return Failure(App(AccessDenied));
    }
    r := Success(token.userId);
  }
}
