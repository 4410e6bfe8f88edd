/** The role-based route guard of proxy.ts. The JWT payload decoding is an
    abstract partial function from the token to its claims. */
module RouteGuard {
  import opened Types
  import opened Text

  /** The decoded payload; only its `role` claim is read. */
  datatype Claims = Claims(role: Option<string>)

  datatype Decision = Redirect(target: string) | Next

  const Login: string := "/login"
  const AdminHome: string := "/admin/dashboard"
  const CustomerHome: string := "/dashboard"
  const ProviderHome: string := "/provider/dashboard"

  /** The role the guard acts on: a truthy `role` claim of a decodable truthy token. */
  function RoleOf(token: Option<string>, decode: string -> Option<Claims>): Option<string>
  {
    match token
    case None => None
    case Some(t) =>
      if t == "" then None
      else match decode(t)
        case None => None
        case Some(c) => if c.role.Some? && c.role.value != "" then c.role else None
  }

  /** `proxy(request)`: the redirect decision for a request to `pathname`. */
  function Proxy(token: Option<string>, decode: string -> Option<Claims>, pathname: string): (d: Decision)
    ensures d == Redirect(Login) <==> RoleOf(token, decode).None?
    ensures d.Redirect? ==> d.target in {Login, AdminHome, CustomerHome, ProviderHome}
    ensures (RoleOf(token, decode).Some? && !StartsWith(pathname, "/dashboard") && !StartsWith(pathname, "/admin")
             && !StartsWith(pathname, "/provider")) ==> d == Next
  {
    match RoleOf(token, decode)
    case None => Redirect(Login)
    case Some(role) =>
      if role == "ADMIN" && (StartsWith(pathname, "/dashboard") || StartsWith(pathname, "/provider")) then
        Redirect(AdminHome)
      else if role == "CUSTOMER" && (StartsWith(pathname, "/admin") || StartsWith(pathname, "/provider")) then
        Redirect(CustomerHome)
      else if role == "PROVIDER"
        && (StartsWith(pathname, "/admin") || pathname == "/dashboard" || StartsWith(pathname, "/dashboard/")) then
        Redirect(ProviderHome)
      else Next
  }

  /** The matcher of the exported config (`/dashboard/:path*` and the like): the
      paths the guard runs on at all. */
  predicate Matched(pathname: string)
  {
    pathname == "/dashboard" || StartsWith(pathname, "/dashboard/")
    || pathname == "/admin" || StartsWith(pathname, "/admin/")
    || pathname == "/provider" || StartsWith(pathname, "/provider/")
  }

  /** Where each role is sent when it strays. */
  function Home(r: Role): string
  {
    match r
    case Admin => AdminHome
    case Customer => CustomerHome
    case Provider => ProviderHome
  }

  /** A path that differs from `prefix` at some position inside `prefix` does not start with it. */
  lemma DiffersAt(s: string, prefix: string, i: nat)
    requires i < |prefix| && i < |s| && s[i] != prefix[i]
    ensures !StartsWith(s, prefix)
  {
    if |prefix| <= |s| { assert s[..|prefix|][i] == s[i]; }
  }

  /** A request without a token, with a token that does not decode, or with no truthy
      role claim goes to /login, whatever the path. */
  lemma NoRoleGoesToLogin(token: Option<string>, decode: string -> Option<Claims>, pathname: string)
    requires token.None? || token == Some("") || decode(token.value).None?
             || decode(token.value).value.role.None? || decode(token.value).value.role == Some("")
    ensures Proxy(token, decode, pathname) == Redirect(Login)
  {
  }

  /** The three redirect rules, each as an if-and-only-if for its role, and the fall-through
      to `next` on every path the role's rule does not catch. */
  lemma RoleRules(token: Option<string>, decode: string -> Option<Claims>, pathname: string)
    ensures RoleOf(token, decode) == Some("ADMIN") ==>
      (Proxy(token, decode, pathname) == Redirect(AdminHome)
       <==> StartsWith(pathname, "/dashboard") || StartsWith(pathname, "/provider"))
    ensures RoleOf(token, decode) == Some("CUSTOMER") ==>
      (Proxy(token, decode, pathname) == Redirect(CustomerHome)
       <==> StartsWith(pathname, "/admin") || StartsWith(pathname, "/provider"))
    ensures RoleOf(token, decode) == Some("PROVIDER") ==>
      (Proxy(token, decode, pathname) == Redirect(ProviderHome)
       <==> StartsWith(pathname, "/admin") || pathname == "/dashboard" || StartsWith(pathname, "/dashboard/"))
    ensures RoleOf(token, decode).Some? ==> Proxy(token, decode, pathname) != Redirect(Login)
    ensures RoleOf(token, decode) == Some("ADMIN") ==>
      (Proxy(token, decode, pathname) == Next
       <==> !(StartsWith(pathname, "/dashboard") || StartsWith(pathname, "/provider")))
    ensures RoleOf(token, decode) == Some("CUSTOMER") ==>
      (Proxy(token, decode, pathname) == Next
       <==> !(StartsWith(pathname, "/admin") || StartsWith(pathname, "/provider")))
    ensures RoleOf(token, decode) == Some("PROVIDER") ==>
      (Proxy(token, decode, pathname) == Next
       <==> !(StartsWith(pathname, "/admin") || pathname == "/dashboard" || StartsWith(pathname, "/dashboard/")))
  {
  }

  /** A role outside the three rules is never redirected. */
  lemma OtherRolePasses(token: Option<string>, decode: string -> Option<Claims>, pathname: string)
    requires RoleOf(token, decode).Some?
    requires forall r: Role :: RoleOf(token, decode).value != RoleName(r)
    ensures Proxy(token, decode, pathname) == Next
  {
    assert RoleName(Admin) == "ADMIN" && RoleName(Customer) == "CUSTOMER" && RoleName(Provider) == "PROVIDER";
  }

  /** The provider rule tests "/dashboard" exactly or with a slash, so "/dashboards" passes
      for a provider while the admin rule, a bare prefix test, redirects it. */
  lemma DashboardsPrefix(token: Option<string>, decode: string -> Option<Claims>)
    ensures RoleOf(token, decode) == Some("PROVIDER") ==> Proxy(token, decode, "/dashboards") == Next
    ensures RoleOf(token, decode) == Some("ADMIN") ==> Proxy(token, decode, "/dashboards") == Redirect(AdminHome)
  {
    assert "/dashboards"[..|"/dashboard"|] == "/dashboard";
    DiffersAt("/dashboards", "/dashboard/", 10);
    DiffersAt("/dashboards", "/admin", 1);
    DiffersAt("/dashboards", "/provider", 1);
  }

  /** A role that lands on its own redirect target is let through. */
  lemma HomePasses(token: Option<string>, decode: string -> Option<Claims>, r: Role)
    requires RoleOf(token, decode) == Some(RoleName(r))
    ensures Proxy(token, decode, Home(r)) == Next
  {
    DiffersAt(AdminHome, "/dashboard", 1);
    DiffersAt(AdminHome, "/provider", 1);
    DiffersAt(CustomerHome, "/admin", 1);
    DiffersAt(CustomerHome, "/provider", 1);
    DiffersAt(ProviderHome, "/admin", 1);
    DiffersAt(ProviderHome, "/dashboard/", 1);
  }

  /** No redirect loop: every redirect target is either outside the matcher, so the guard
      does not run there, or a path the guard lets the same request through to. */
  lemma NoRedirectLoop(token: Option<string>, decode: string -> Option<Claims>, pathname: string)
    ensures Proxy(token, decode, pathname).Redirect? ==>
      var t := Proxy(token, decode, pathname).target;
      !Matched(t) || Proxy(token, decode, t) == Next
  {
    match RoleOf(token, decode)
    case None =>
      DiffersAt(Login, "/dashboard/", 1);
      DiffersAt(Login, "/admin/", 1);
      DiffersAt(Login, "/provider/", 1);
      assert !Matched(Login);
    case Some(role) =>
      if role == "ADMIN" { HomePasses(token, decode, Admin); }
      if role == "CUSTOMER" { HomePasses(token, decode, Customer); }
      if role == "PROVIDER" { HomePasses(token, decode, Provider); }
  }
}
