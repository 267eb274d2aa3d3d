/**
 * The route guard that runs before every page: the `middleware` decision, the
 * `authorized` callback that `withAuth` consults first, and the `matcher`
 * pattern that decides which paths reach either of them.
 */
module Middleware {
  import opened Wrappers
  import opened Text

  /** The decoded session token as the guard sees it: only its role is consulted. */
  datatype Token = Token(role: Option<string>)

  /** What the guard answers: let the request through, or redirect it. */
  datatype Decision =
    | Next
    | Redirect(target: string)
    | RedirectToLogin(callbackUrl: string)  // `/login?callbackUrl=<path>`

  /** The four role namespaces, in the order the guard tests them. */
  const Namespaces: seq<string> := ["admin", "teacher", "student", "parent"]

  predicate IsAuthPage(path: string) {
    path == "/login" || path == "/signup"
  }

  predicate IsApiAuth(path: string) {
    StartsWith(path, "/api/auth")
  }

  /** `${token.role?.toLowerCase()}`: a missing role interpolates as "undefined". */
  function RoleSegment(role: Option<string>): string {
    match role
    case Some(r) => ToLower(r)
    case None => "undefined"
  }

  /** `/${token.role?.toLowerCase() || "admin"}`: a missing or empty role falls back to "admin". */
  function AuthPageTarget(role: Option<string>): string {
    "/" + if role.Some? && ToLower(role.value) != "" then ToLower(role.value) else "admin"
  }

  /** The `middleware` function: a fixed chain of tests over the path and the token. */
  function Decide(path: string, token: Option<Token>): Decision {
    if IsAuthPage(path) || IsApiAuth(path) then
      if IsAuthPage(path) && token.Some? then Redirect(AuthPageTarget(token.value.role)) else Next
    else if token.None? then
      RedirectToLogin(path)
    else
      var role := RoleSegment(token.value.role);
      if StartsWith(path, "/admin") && role != "admin" then Redirect("/" + role)
      else if StartsWith(path, "/teacher") && role != "teacher" then Redirect("/" + role)
      else if StartsWith(path, "/student") && role != "student" then Redirect("/" + role)
      else if StartsWith(path, "/parent") && role != "parent" then Redirect("/" + role)
      else Next
  }

  /** The `authorized` callback of `withAuth`. */
  predicate Authorized(path: string, token: Option<Token>) {
    if IsAuthPage(path) then true else token.Some?
  }

  /**
   * The matcher `/((?!api|_next/static|_next/image|favicon.ico|.*\.).*)`: the
   * text after the leading slash must not begin with one of the excluded
   * prefixes (the `.` of `favicon.ico` is a regular-expression wildcard) and
   * must not contain a dot.
   */
  predicate Matches(path: string) {
    |path| >= 1 && path[0] == '/' &&
    var rest := path[1..];
    && !StartsWith(rest, "api")
    && !StartsWith(rest, "_next/static")
    && !StartsWith(rest, "_next/image")
    && !(|rest| >= 11 && rest[..7] == "favicon" && rest[8..11] == "ico")
    && (forall i :: 0 <= i < |rest| ==> rest[i] != '.')
  }

  /** What happens to a request once `withAuth` wraps the middleware. */
  datatype Outcome =
    | NotIntercepted            // the matcher leaves the path alone
    | SignInPage(path: string)  // `authorized` said no: the library's own redirect to the sign-in page
    | Ran(decision: Decision)   // the middleware function ran

  function Gate(path: string, token: Option<Token>): Outcome {
    if !Matches(path) then NotIntercepted
    else if !Authorized(path, token) then SignInPage(path)
    else Ran(Decide(path, token))
  }

  /** The namespace a path falls in by the guard's plain prefix tests, if any. */
  function NamespaceOf(path: string): (ns: Option<string>)
    ensures ns.Some? ==> ns.value in Namespaces && StartsWith(path, "/" + ns.value)
    ensures ns.None? ==> forall n :: n in Namespaces ==> !StartsWith(path, "/" + n)
  {
    if StartsWith(path, "/admin") then Some("admin")
    else if StartsWith(path, "/teacher") then Some("teacher")
    else if StartsWith(path, "/student") then Some("student")
    else if StartsWith(path, "/parent") then Some("parent")
    else None
  }

  // ---------------------------------------------------------------------------
  // Lemmas

  /** At most one namespace prefixes any path, so the order of the four tests cannot change the answer. */
  lemma NamespacesExclusive(path: string, i: nat, j: nat)
    requires i < |Namespaces| && j < |Namespaces|
    requires StartsWith(path, "/" + Namespaces[i]) && StartsWith(path, "/" + Namespaces[j])
    ensures i == j
  {
    var a, b := "/" + Namespaces[i], "/" + Namespaces[j];
    assert path[1] == a[1] == b[1];
  }

  /** The character after the slash tells the four namespace prefixes apart. */
  lemma NamespaceFirstChar(path: string)
    ensures StartsWith(path, "/admin") ==> path[1] == 'a'
    ensures StartsWith(path, "/teacher") ==> path[1] == 't'
    ensures StartsWith(path, "/student") ==> path[1] == 's'
    ensures StartsWith(path, "/parent") ==> path[1] == 'p'
    ensures IsApiAuth(path) ==> path[1] == 'a' && path[2] == 'p'
    ensures StartsWith(path, "/admin") ==> path[2] == 'd'
    ensures StartsWith(path, "/student") ==> path[2] == 't'
  {
    if StartsWith(path, "/admin") { assert path[1] == path[..6][1]; assert path[2] == path[..6][2]; }
    if StartsWith(path, "/teacher") { assert path[1] == path[..8][1]; }
    if StartsWith(path, "/student") { assert path[1] == path[..8][1] && path[2] == path[..8][2]; }
    if StartsWith(path, "/parent") { assert path[1] == path[..7][1]; }
    if IsApiAuth(path) { assert path[1] == path[..9][1] && path[2] == path[..9][2]; }
  }

  /** Order-free reading of the guard on a protected path with a token: redirect home exactly when the path's namespace is not the role's. */
  lemma {:induction false} DecideByNamespace(path: string, t: Token)
    requires !IsAuthPage(path) && !IsApiAuth(path)
    ensures var role := RoleSegment(t.role);
      Decide(path, Some(t)) ==
        if NamespaceOf(path).Some? && NamespaceOf(path).value != role then Redirect("/" + role) else Next
  {
    NamespaceFirstChar(path);
  }

  /** The login and sign-up pages are always let through without a token, and `authorized` accepts them whatever the token. */
  lemma AuthPagesOpen(path: string, token: Option<Token>)
    requires IsAuthPage(path)
    ensures Decide(path, None) == Next
    ensures Authorized(path, token)
  {
  }

  /** A signed-in user who opens the login or sign-up page is sent to the page of their lower-cased role, or to /admin without one. */
  lemma AuthPageRedirectsSignedIn(path: string, t: Token)
    requires IsAuthPage(path)
    ensures t.role.Some? && ToLower(t.role.value) != "" ==> Decide(path, Some(t)) == Redirect("/" + ToLower(t.role.value))
    ensures t.role.None? ==> Decide(path, Some(t)) == Redirect("/admin")
  {
  }

  /** Without a token every other path (outside /api/auth) goes to the login page, carrying the original path as its callbackUrl. */
  lemma AnonymousGoesToLogin(path: string)
    requires !IsAuthPage(path) && !IsApiAuth(path)
    ensures Decide(path, None) == RedirectToLogin(path)
  {
  }

  /** A path in another role's namespace sends the token's holder to their own home. */
  lemma {:induction false} ForeignNamespaceRedirects(path: string, t: Token, ns: string)
    requires !IsAuthPage(path) && !IsApiAuth(path)
    requires ns in Namespaces && StartsWith(path, "/" + ns)
    requires RoleSegment(t.role) != ns
    ensures Decide(path, Some(t)) == Redirect("/" + RoleSegment(t.role))
  {
    DecideByNamespace(path, t);
    var k :| 0 <= k < |Namespaces| && Namespaces[k] == ns;
    var m :| 0 <= m < |Namespaces| && Namespaces[m] == NamespaceOf(path).value;
    NamespacesExclusive(path, k, m);
  }

  /** A path in the holder's own namespace, or in none, is let through. */
  lemma {:induction false} OwnOrNoNamespaceAllowed(path: string, t: Token)
    requires !IsAuthPage(path) && !IsApiAuth(path)
    requires NamespaceOf(path).None? || NamespaceOf(path).value == RoleSegment(t.role)
    ensures Decide(path, Some(t)) == Next
  {
    DecideByNamespace(path, t);
  }

  /** The guard's namespace test is a plain prefix: /administrator is admin space, so a teacher is sent home from it. */
  lemma AdministratorIsAdminSpace()
    ensures Decide("/administrator", Some(Token(Some("TEACHER")))) == Redirect("/teacher")
  {
    assert ToLower("TEACHER") == "teacher";
    assert StartsWith("/administrator", "/admin");
    NamespaceFirstChar("/administrator");
    ForeignNamespaceRedirects("/administrator", Token(Some("TEACHER")), "admin");
  }

  /** Likewise /teachers is teacher space, so a student is sent home from it. */
  lemma TeachersIsTeacherSpace()
    ensures Decide("/teachers", Some(Token(Some("STUDENT")))) == Redirect("/student")
  {
    assert ToLower("STUDENT") == "student";
    assert StartsWith("/teachers", "/teacher");
    NamespaceFirstChar("/teachers");
    ForeignNamespaceRedirects("/teachers", Token(Some("STUDENT")), "teacher");
  }

  /** And an admin may open /administrator. */
  lemma AdministratorOpenToAdmin()
    ensures Decide("/administrator", Some(Token(Some("ADMIN")))) == Next
  {
    assert ToLower("ADMIN") == "admin";
    assert StartsWith("/administrator", "/admin");
    NamespaceFirstChar("/administrator");
    OwnOrNoNamespaceAllowed("/administrator", Token(Some("ADMIN")));
  }

  /** For the four known roles, whatever the guard redirects to is let through for the same token: no redirect loop. */
  lemma {:induction false} NoRedirectLoop(path: string, r: string)
    requires ToLower(r) in Namespaces
    ensures Decide(path, Some(Token(Some(r)))).Redirect? ==>
      Decide(path, Some(Token(Some(r)))).target == "/" + ToLower(r)
    ensures Decide("/" + ToLower(r), Some(Token(Some(r)))) == Next
  {
    var t := Token(Some(r));
    var home := "/" + ToLower(r);
    assert StartsWith(home, "/" + ToLower(r));
    NamespaceFirstChar(home);
    assert !IsAuthPage(home) && !IsApiAuth(home);
    OwnOrNoNamespaceAllowed(home, t);
    if !IsAuthPage(path) && !IsApiAuth(path) {
      DecideByNamespace(path, t);
    }
  }

  /** A role that merely begins with a namespace name (say "ADMINS") is redirected to its own home forever: the loop the plain prefix test allows for roles outside the four. */
  lemma {:induction false} LoopForRoleExtendingNamespace(r: string, ns: string)
    requires ns in Namespaces && StartsWith(ToLower(r), ns) && ToLower(r) != ns
    ensures Decide("/" + ToLower(r), Some(Token(Some(r)))) == Redirect("/" + ToLower(r))
  {
    var home := "/" + ToLower(r);
    assert StartsWith(home, "/" + ns) by {
      assert home[..|ns| + 1] == "/" + ToLower(r)[..|ns|];
    }
    NamespaceFirstChar(home);
    assert !IsAuthPage(home) && !IsApiAuth(home);
    ForeignNamespaceRedirects(home, Token(Some(r)), ns);
  }

  /** A path that starts with "/" + p has p at the start of the text after its slash. */
  lemma SlashPrefix(path: string, p: string)
    requires StartsWith(path, "/" + p)
    ensures StartsWith(path[1..], p)
  {
    assert path[1..][..|p|] == path[..|p| + 1][1..];
  }

  /** The matcher never intercepts API routes, framework assets, the favicon or any path with a dot. */
  lemma {:induction false} MatcherExclusions(path: string)
    ensures StartsWith(path, "/api") ==> !Matches(path)
    ensures StartsWith(path, "/_next/static") || StartsWith(path, "/_next/image") ==> !Matches(path)
    ensures StartsWith(path, "/favicon.ico") ==> !Matches(path)
    ensures (exists i :: 0 <= i < |path| && path[i] == '.') ==> !Matches(path)
  {
    if StartsWith(path, "/api") { SlashPrefix(path, "api"); }
    if StartsWith(path, "/_next/static") { SlashPrefix(path, "_next/static"); }
    if StartsWith(path, "/_next/image") { SlashPrefix(path, "_next/image"); }
    if StartsWith(path, "/favicon.ico") {
      SlashPrefix(path, "favicon.ico");
      assert path[1..][..7] == path[1..][..11][..7] && path[1..][8..11] == path[1..][..11][8..11];
    }
    if exists i :: 0 <= i < |path| && path[i] == '.' {
      var i :| 0 <= i < |path| && path[i] == '.';
      if i >= 1 { assert path[1..][i - 1] == '.'; }
    }
  }

  /** The /api/auth routes are outside what the matcher intercepts. */
  lemma ApiAuthNotMatched(path: string)
    ensures IsApiAuth(path) ==> !Matches(path)
  {
    if IsApiAuth(path) {
      assert path[..4] == path[..9][..4];
      MatcherExclusions(path);
    }
  }

  /** The login page is intercepted. */
  lemma MatcherInterceptsLogin()
    ensures Matches("/login")
  {
    NotPrefix("login", "api", 0);
    NotPrefix("login", "_next/static", 0);
    NotPrefix("login", "_next/image", 0);
  }

  /** A dashboard page is intercepted. */
  lemma MatcherInterceptsDashboard()
    ensures Matches("/admin/students")
  {
    var rest := "admin/students";
    NotPrefix(rest, "api", 1);
    NotPrefix(rest, "_next/static", 0);
    NotPrefix(rest, "_next/image", 0);
    assert rest[..7][0] == 'a';
  }

  /** An API route and an image file are not intercepted. */
  lemma MatcherSkipsApiAndFiles()
    ensures !Matches("/api/students") && !Matches("/logo/images.jpeg")
  {
    assert "/api/students"[..4] == "/api";
    MatcherExclusions("/api/students");
    assert "/logo/images.jpeg"[12] == '.';
    MatcherExclusions("/logo/images.jpeg");
  }

  /** On every intercepted path, a request `authorized` turns away is one the middleware itself would have sent to the login page. */
  lemma {:induction false} SignInAgreesWithMiddleware(path: string, token: Option<Token>)
    requires Matches(path) && !Authorized(path, token)
    ensures Gate(path, token) == SignInPage(path)
    ensures Decide(path, token) == RedirectToLogin(path)
  {
    ApiAuthNotMatched(path);
  }

  /** The guarantee of the gate: a namespaced page runs only for a token whose role is that namespace (up to the plain prefix test). */
  lemma {:induction false} GateProtectsNamespaces(path: string, token: Option<Token>, ns: string)
    requires ns in Namespaces && StartsWith(path, "/" + ns)
    requires Gate(path, token) == Ran(Next)
    ensures token.Some? && RoleSegment(token.value.role) == ns
  {
    NamespaceFirstChar(path);
    assert !IsAuthPage(path);
    ApiAuthNotMatched(path);
    if RoleSegment(token.value.role) != ns {
      ForeignNamespaceRedirects(path, token.value, ns);
    }
  }
}
