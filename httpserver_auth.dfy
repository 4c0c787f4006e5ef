// Role checks of the internal HTTP server (pkg/internal/httpserver/auth.go):
// the role order, the access test, the handler wrapper, and the header
// getters.  A request is its header map; a Go panic is the `Panicked`
// outcome (or `None` for a getter).  The literal names of the roles belong
// to the auth API package, which is not part of this model: a header's
// text is turned into a `Role` by the `toRole` parameter.  Go's Header.Get
// canonicalises the name it looks up; the keys of the header map stand for
// canonical MIME header names, so a lookup here is an exact map lookup.

module HttpServerAuth {
  import opened Common

  const XKeibiWorkspaceNameHeader: string := "X-Keibi-WorkspaceName"
  const XKeibiUserIDHeader: string := "X-Keibi-UserId"
  const XKeibiUserRoleHeader: string := "X-Keibi-UserRole"

  datatype Role = ViewerRole | EditorRole | AdminRole | OtherRole(name: string)

  predicate Supported(r: Role) { !r.OtherRole? }

  /** roleToPriority; any other role panics, so callers must pass a supported one. */
  function RoleToPriority(r: Role): (p: nat)
    requires Supported(r)
    ensures r == ViewerRole ==> p == 0
    ensures r == EditorRole ==> p == 1
    ensures r == AdminRole ==> p == 2
  {
    match r
    case ViewerRole => 0
    case EditorRole => 1
    case AdminRole => 2
  }

  /** Distinct roles have distinct priorities. */
  lemma RoleToPriorityInjective(a: Role, b: Role)
    requires Supported(a) && Supported(b) && RoleToPriority(a) == RoleToPriority(b)
    ensures a == b
  {
  }

  predicate HasAccess(curr: Role, min: Role)
    requires Supported(curr) && Supported(min)
  {
    RoleToPriority(curr) >= RoleToPriority(min)
  }

  lemma HasAccessReflexive(r: Role)
    requires Supported(r)
    ensures HasAccess(r, r)
  {
  }

  lemma HasAccessTransitive(a: Role, b: Role, c: Role)
    requires Supported(a) && Supported(b) && Supported(c)
    requires HasAccess(a, b) && HasAccess(b, c)
    ensures HasAccess(a, c)
  {
  }

  /** Any two supported roles are comparable, and only equal roles grant each other access. */
  lemma HasAccessTotalAntisymmetric(a: Role, b: Role)
    requires Supported(a) && Supported(b)
    ensures HasAccess(a, b) || HasAccess(b, a)
    ensures HasAccess(a, b) && HasAccess(b, a) ==> a == b
  {
  }

  /** Admin passes every minimum role; Viewer passes only Viewer. */
  lemma AdminAndViewerAccess(min: Role)
    requires Supported(min)
    ensures HasAccess(AdminRole, min)
    ensures HasAccess(ViewerRole, min) <==> min == ViewerRole
  {
  }

  /** unicode.IsSpace on the Latin-1 range. */
  predicate IsSpace(c: char)
  {
    c == ' ' || c == '\t' || c == '\n' || c == '\r' || c == '\U{000B}' || c == '\U{000C}' ||
    c == '\U{0085}' || c == '\U{00A0}'
  }

  /** strings.TrimSpace(s) == "": the value consists of white space only. */
  predicate Blank(s: string)
  {
    forall i :: 0 <= i < |s| ==> IsSpace(s[i])
  }

  /** Header.Get on canonical names: the value, or "" when the header is absent. */
  function HeaderGet(headers: map<string, string>, name: string): string
  {
    if name in headers then headers[name] else ""
  }

  /** GetWorkspaceName: the header value; `None` is the panic on a missing or blank header. */
  function GetWorkspaceName(headers: map<string, string>): (r: Option<string>)
    ensures r.None? <==> Blank(HeaderGet(headers, XKeibiWorkspaceNameHeader))
    ensures r.Some? ==> r.value == headers[XKeibiWorkspaceNameHeader]
  {
    var name := HeaderGet(headers, XKeibiWorkspaceNameHeader);
    if Blank(name) then None else Some(name)
  }

  /** GetUserRole: the role named by the header; `None` is the panic on a missing or blank header. */
  function GetUserRole(headers: map<string, string>, toRole: string -> Role): (r: Option<Role>)
    ensures r.None? <==> Blank(HeaderGet(headers, XKeibiUserRoleHeader))
    ensures r.Some? ==> r.value == toRole(headers[XKeibiUserRoleHeader])
  {
    var role := HeaderGet(headers, XKeibiUserRoleHeader);
    if Blank(role) then None else Some(toRole(role))
  }

  /** GetUserID: `parse` is uuid.Parse; a blank header or a parse failure panics (`None`). */
  function GetUserID(headers: map<string, string>, parse: string -> Option<string>): (r: Option<string>)
    ensures Blank(HeaderGet(headers, XKeibiUserIDHeader)) ==> r.None?
    ensures !Blank(HeaderGet(headers, XKeibiUserIDHeader)) ==> r == parse(headers[XKeibiUserIDHeader])
  {
    var id := HeaderGet(headers, XKeibiUserIDHeader);
    if Blank(id) then None else parse(id)
  }

  /** A handler call wrapped by AuthorizeHandler. */
  datatype Outcome<T> = Called(response: T) | Forbidden(status: nat, message: string) | Panicked

  /** RequireMinRole: None when access is granted, the 403 error otherwise. */
  function RequireMinRole(headers: map<string, string>, toRole: string -> Role, min: Role): (r: Outcome<()>)
    ensures r.Forbidden? ==> r.status == 403 && r.message == "missing required permission"
    ensures r.Panicked? <==> (GetUserRole(headers, toRole).None? || !Supported(GetUserRole(headers, toRole).value) ||
                              !Supported(min))
    ensures r.Called? <==> (GetUserRole(headers, toRole).Some? && Supported(GetUserRole(headers, toRole).value) &&
                            Supported(min) && HasAccess(GetUserRole(headers, toRole).value, min))
  {
    var curr := GetUserRole(headers, toRole);
    if curr.None? || !Supported(curr.value) || !Supported(min) then Panicked
    else if !HasAccess(curr.value, min) then Forbidden(403, "missing required permission")
    else Called(())
  }

  /**
   * AuthorizeHandler: `handler` is the wrapped handler's response; it is
   * produced iff the role check passes.
   */
  function AuthorizeHandler<T>(headers: map<string, string>, toRole: string -> Role, min: Role, handler: T)
    : (r: Outcome<T>)
    ensures r.Called? <==> RequireMinRole(headers, toRole, min).Called?
    ensures r.Called? ==> r.response == handler
    ensures r.Forbidden? <==> RequireMinRole(headers, toRole, min).Forbidden?
    ensures r.Forbidden? ==> r.status == 403
  {
    match RequireMinRole(headers, toRole, min)
    case Called(_) => Called(handler)
    case Forbidden(s, m) => Forbidden(s, m)
    case Panicked => Panicked
  }

  /** Raising the minimum role never lets more requests through. */
  lemma AuthorizeMonotone<T>(headers: map<string, string>, toRole: string -> Role, min1: Role, min2: Role, handler: T)
    requires Supported(min1) && Supported(min2) && HasAccess(min2, min1)
    requires AuthorizeHandler(headers, toRole, min2, handler).Called?
    ensures AuthorizeHandler(headers, toRole, min1, handler).Called?
  {
  }
}
