/**
 * The pure part of the dashboard sidebar: one constant link table per role,
 * the `getLinks` switch that picks a table, and the `isActive` test that
 * highlights the link for the current page.
 */
module Sidebar {
  import opened Wrappers
  import opened Text
  import Middleware

  /** A navigation entry: its `href` and its `label` text; the icon is presentation and is left out. */
  datatype Link = Link(href: string, caption: string)

  const AdminLinks: seq<Link> := [
    Link("/admin", "Dashboard"),
    Link("/admin/students", "Students"),
    Link("/admin/teachers", "Teachers"),
    Link("/admin/classes", "Classes"),
    Link("/about", "About")
  ]

  const TeacherLinks: seq<Link> := [
    Link("/teacher", "Dashboard"),
    Link("/teacher/classes", "My Classes"),
    Link("/teacher/attendance", "Attendance"),
    Link("/teacher/results", "Results"),
    Link("/about", "About")
  ]

  const StudentLinks: seq<Link> := [
    Link("/student", "Dashboard"),
    Link("/student/attendance", "My Attendance"),
    Link("/student/results", "My Results"),
    Link("/student/profile", "Profile"),
    Link("/about", "About")
  ]

  const ParentLinks: seq<Link> := [
    Link("/parent", "Dashboard"),
    Link("/parent/children", "My Children"),
    Link("/parent/attendance", "Attendance"),
    Link("/parent/results", "Results"),
    Link("/about", "About")
  ]

  /** The role names the `switch` recognises. */
  const RoleNames: seq<string> := ["ADMIN", "TEACHER", "STUDENT", "PARENT"]

  /** `getLinks`: the table for the role, or no links for any other value. */
  function GetLinks(role: string): seq<Link> {
    match role
    case "ADMIN" => AdminLinks
    case "TEACHER" => TeacherLinks
    case "STUDENT" => StudentLinks
    case "PARENT" => ParentLinks
    case _ => []
  }

  /** `isActive`: the page is the link itself or lies below it. */
  predicate IsActive(pathname: string, href: string) {
    pathname == href || StartsWith(pathname, href + "/")
  }

  /** The dashboard home of a role name, as the guard spells it. */
  function Home(role: string): string {
    "/" + ToLower(role)
  }

  // ---------------------------------------------------------------------------
  // Lemmas

  /** The link table of a role has the shape every table shares: five entries, the role's home first, /about last, and every other link below the home. */
  ghost predicate WellShaped(links: seq<Link>, home: string) {
    && |links| == 5
    && links[0].href == home
    && links[4].href == "/about"
    && forall i :: 0 < i < 4 ==> StartsWith(links[i].href, home + "/")
  }

  lemma AdminTableShape()
    ensures WellShaped(GetLinks("ADMIN"), Home("ADMIN"))
  {
    assert Home("ADMIN") == "/admin";
    assert AdminLinks[1].href[..7] == "/admin/";
    assert AdminLinks[2].href[..7] == "/admin/";
    assert AdminLinks[3].href[..7] == "/admin/";
  }

  lemma TeacherTableShape()
    ensures WellShaped(GetLinks("TEACHER"), Home("TEACHER"))
  {
    assert Home("TEACHER") == "/teacher";
    assert TeacherLinks[1].href[..9] == "/teacher/";
    assert TeacherLinks[2].href[..9] == "/teacher/";
    assert TeacherLinks[3].href[..9] == "/teacher/";
  }

  lemma StudentTableShape()
    ensures WellShaped(GetLinks("STUDENT"), Home("STUDENT"))
  {
    assert Home("STUDENT") == "/student";
    assert StudentLinks[1].href[..9] == "/student/";
    assert StudentLinks[2].href[..9] == "/student/";
    assert StudentLinks[3].href[..9] == "/student/";
  }

  lemma ParentTableShape()
    ensures WellShaped(GetLinks("PARENT"), Home("PARENT"))
  {
    assert Home("PARENT") == "/parent";
    assert ParentLinks[1].href[..8] == "/parent/";
    assert ParentLinks[2].href[..8] == "/parent/";
    assert ParentLinks[3].href[..8] == "/parent/";
  }

  /** Every recognised role gets a well-shaped table; any other value gets none. */
  lemma {:induction false} GetLinksByRole(role: string)
    ensures role in RoleNames ==> WellShaped(GetLinks(role), Home(role))
    ensures role !in RoleNames ==> GetLinks(role) == []
  {
    if role == "ADMIN" { AdminTableShape(); }
    else if role == "TEACHER" { TeacherTableShape(); }
    else if role == "STUDENT" { StudentTableShape(); }
    else if role == "PARENT" { ParentTableShape(); }
  }

  /** A link is active on its own page. */
  lemma ActiveOnItself(href: string)
    ensures IsActive(href, href)
  {
  }

  /** Unlike the guard's plain prefix, the sidebar demands a slash: /administrator does not activate /admin. */
  lemma AdministratorNotUnderAdmin()
    ensures !IsActive("/administrator", "/admin")
  {
    NotPrefix("/administrator", "/admin/", 6);
  }

  /** A nested page activates both its own link and its section's home. */
  lemma NestedPageActivatesBoth()
    ensures IsActive("/admin/students", "/admin")
    ensures IsActive("/admin/students", "/admin/students")
  {
    assert "/admin/students"[..7] == "/admin/";
  }

  /** An active link is always a plain prefix of the page, so a highlighted home lies in the namespace the guard protects. */
  lemma {:induction false} ActiveImpliesPrefix(pathname: string, href: string)
    requires IsActive(pathname, href)
    ensures StartsWith(pathname, href)
  {
    if pathname != href {
      PrefixChars(pathname, href + "/");
      assert pathname[..|href|] == href;
    }
  }

  /** The guard lets a holder of the role open every link of the role's own table: the menu never points at a redirect. */
  lemma {:induction false} LinksOpenToOwnRole(role: string, i: nat)
    requires role in RoleNames && i < |GetLinks(role)|
    ensures Middleware.Decide(GetLinks(role)[i].href, Some(Middleware.Token(Some(role)))) == Middleware.Next
  {
    GetLinksByRole(role);
    var links := GetLinks(role);
    var home := Home(role);
    var t := Middleware.Token(Some(role));
    var href := links[i].href;
    assert ToLower(role) in Middleware.Namespaces by {
      assert ToLower("ADMIN") == "admin" && ToLower("TEACHER") == "teacher";
      assert ToLower("STUDENT") == "student" && ToLower("PARENT") == "parent";
    }
    if i == 4 {
      assert href == "/about";
      NotPrefix(href, "/admin", 2);
      NotPrefix(href, "/teacher", 1);
      NotPrefix(href, "/student", 1);
      NotPrefix(href, "/parent", 1);
      NotPrefix(href, "/api/auth", 2);
      Middleware.OwnOrNoNamespaceAllowed(href, t);
    } else if i == 0 {
      Middleware.NoRedirectLoop(href, role);
    } else {
      ActiveImpliesPrefix(href, home);
      Middleware.NamespaceFirstChar(href);
      PrefixChars(href, home);
      assert !Middleware.IsAuthPage(href) && !Middleware.IsApiAuth(href);
      var ns := Middleware.NamespaceOf(href);
      var k :| 0 <= k < |Middleware.Namespaces| && Middleware.Namespaces[k] == ToLower(role);
      assert StartsWith(href, "/" + ToLower(role));
      if ns.Some? {
        var m :| 0 <= m < |Middleware.Namespaces| && Middleware.Namespaces[m] == ns.value;
        Middleware.NamespacesExclusive(href, k, m);
      }
      Middleware.OwnOrNoNamespaceAllowed(href, t);
    }
  }
}
