/** The middleware chain in front of every route except health and login
    (server/src/index.ts:133-160): `authenticateToken` reads a bearer token
    from the `Authorization` header and verifies it, then `isAdmin` or
    `isOperator` checks the role the token carries. Token verification
    (signature and expiry) is a parameter of the model. */
module Auth {
  import opened Text

  /** The payload a verified token carries: `{id, username, role, language}`. */
  datatype Principal = Principal(id: int, username: string, role: string, language: Option<string>)

  /** `jwt.verify` with the server's secret key at the current time: the
      decoded payload, or nothing when the signature or expiry check fails. */
  type Verifier = string -> Option<Principal>

  /** What a guard does: let the request through to the next handler with the
      principal attached, or answer it with an HTTP status. */
  datatype Gate = Proceed(principal: Principal) | Reject(status: int, message: string)

  /** `authHeader && authHeader.split(' ')[1]`, a falsy result counted as no
      token. The scheme word before the space is not looked at. */
  function BearerToken(header: Option<string>): (r: Option<string>)
    ensures r.Some? <==> header.Some? && |Split(header.value, ' ')| >= 2 && Split(header.value, ' ')[1] != ""
    ensures r.Some? ==> r.value == Split(header.value, ' ')[1]
    ensures r.Some? ==> r.value != "" && ' ' !in r.value
  {
    if header.None? || header.value == "" then None
    else
      var fields := Split(header.value, ' ');
      SplitJoin(header.value, ' ');
      if |fields| < 2 || fields[1] == "" then None else Some(fields[1])
  }

  /** A header written as section 2.1 of RFC 6750 describes it,
      `<scheme> <token>`, yields the token, whatever the scheme word is. */
  lemma BearerHeader(scheme: string, token: string)
    requires ' ' !in scheme && ' ' !in token && token != ""
    ensures BearerToken(Some(scheme + " " + token)) == Some(token)
  {
    SplitAppend(scheme, ' ', token);
    SplitNoSep(token, ' ');
    assert scheme + " " + token == scheme + [' '] + token;
  }

  /** A header that is a single word carries no token. */
  lemma SchemeOnlyHeader(scheme: string)
    requires ' ' !in scheme
    ensures BearerToken(Some(scheme)) == None
  {
    SplitNoSep(scheme, ' ');
  }

  /** `authenticateToken`: 401 without a token, 403 when it does not verify,
      otherwise the request proceeds with the decoded principal. */
  function AuthenticateToken(header: Option<string>, verify: Verifier): (r: Gate)
    ensures r.Reject? ==> r.status == 401 || r.status == 403
    ensures r.Reject? && r.status == 401 <==> BearerToken(header).None?
    ensures r.Reject? && r.status == 403 <==> BearerToken(header).Some? && verify(BearerToken(header).value).None?
    ensures r.Proceed? ==> BearerToken(header).Some? && verify(BearerToken(header).value) == Some(r.principal)
  {
    var token := BearerToken(header);
    if token.None? then Reject(401, "Unauthorized")
    else match verify(token.value)
      case None => Reject(403, "Forbidden")
      case Some(user) => Proceed(user)
  }

  /** `isAdmin`: the role is exactly `admin`. */
  predicate IsAdminRole(role: string): (yes: bool)
    ensures yes ==> IsOperatorRole(role)
  {
    role == "admin"
  }

  /** `isOperator`: the role is `admin` or `operator`. */
  predicate IsOperatorRole(role: string): (yes: bool)
    ensures yes <==> role in {"admin", "operator"}
  {
    role == "admin" || role == "operator"
  }

  /** The two role checks are flat, yet admin implies operator, and
      `viewer` (or any other role) passes neither. */
  lemma RoleLattice(role: string)
    ensures IsAdminRole(role) ==> IsOperatorRole(role)
    ensures IsOperatorRole(role) && !IsAdminRole(role) <==> role == "operator"
    ensures role != "admin" && role != "operator" ==> !IsOperatorRole(role) && !IsAdminRole(role)
  {
  }

  /** Which guard a route puts after `authenticateToken`. */
  datatype Access = AnyUser | OperatorOnly | AdminOnly

  /** `isOperator` and `isAdmin` (index.ts:146-160) behind a route, or no
      guard at all: the same principal goes on exactly when the guard admits
      its role, and 403 otherwise. */
  function RoleCheck(p: Principal, access: Access): (r: Gate)
    ensures r.Proceed? <==>
      match access
      case AnyUser => true
      case OperatorOnly => IsOperatorRole(p.role)
      case AdminOnly => IsAdminRole(p.role)
    ensures r.Proceed? ==> r.principal == p
    ensures r.Reject? ==> r.status == 403
  {
    match access
    case AnyUser => Proceed(p)
    case OperatorOnly => if IsOperatorRole(p.role) then Proceed(p) else Reject(403, "Operator access required")
    case AdminOnly => if IsAdminRole(p.role) then Proceed(p) else Reject(403, "Admin access required")
  }

  /** The whole chain of a route: authentication, then its role check. */
  function Authorize(header: Option<string>, verify: Verifier, access: Access): (r: Gate)
    ensures BearerToken(header).None? ==> r == Reject(401, "Unauthorized")
    ensures r.Proceed? <==>
      && BearerToken(header).Some?
      && verify(BearerToken(header).value).Some?
      && var role := verify(BearerToken(header).value).value.role;
         match access
         case AnyUser => true
         case OperatorOnly => role == "admin" || role == "operator"
         case AdminOnly => role == "admin"
    ensures r.Proceed? ==> r.principal == verify(BearerToken(header).value).value
    ensures r.Reject? ==> r.status == 401 || r.status == 403
  {
    match AuthenticateToken(header, verify)
    case Reject(s, m) => Reject(s, m)
    case Proceed(p) => RoleCheck(p, access)
  }

  /** A request that passes an admin-only route passes an operator route, and
      one that passes an operator route passes any authenticated route. */
  lemma AccessMonotone(header: Option<string>, verify: Verifier)
    ensures Authorize(header, verify, AdminOnly).Proceed? ==> Authorize(header, verify, OperatorOnly).Proceed?
    ensures Authorize(header, verify, OperatorOnly).Proceed? ==> Authorize(header, verify, AnyUser).Proceed?
  {
  }
}
