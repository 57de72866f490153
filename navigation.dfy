/** The sidebar navigation of the dashboard layout: a fixed base list followed
    by a list chosen by the session's role claim, with a STUDENT default, and
    the test that marks the item for the current path as active. */
module Navigation {
  import opened Wrappers

  /** The icons the navigation items carry (only as identifiers). */
  datatype Icon = Home | BookOpen | FileText | BarChart3 | Users | Settings

  datatype NavItem = NavItem(name: string, href: string, icon: Icon)

  /** The four keys of the role table. */
  datatype Role = Student | Teacher | Parent | Admin

  /** The key under which a role's list is stored in the role table. */
  function Key(role: Role): string
  {
    match role
    case Student => "STUDENT"
    case Teacher => "TEACHER"
    case Parent => "PARENT"
    case Admin => "ADMIN"
  }

  /** The table entry a role claim selects: a role exactly when the claim is
      one of the four keys, and nothing for an absent or unknown claim. */
  function RoleOf(claim: Option<string>): (r: Option<Role>)
    ensures r.Some? ==> claim == Some(Key(r.value))
    ensures r.None? ==> forall role: Role :: claim != Some(Key(role))
  {
    match claim
    case None => None
    case Some(k) =>
      if k == "STUDENT" then Some(Student)
      else if k == "TEACHER" then Some(Teacher)
      else if k == "PARENT" then Some(Parent)
      else if k == "ADMIN" then Some(Admin)
      else None
  }

  /** The role whose list is shown: the claimed one, or STUDENT by default. */
  function EffectiveRole(claim: Option<string>): Role
  {
    match RoleOf(claim)
    case Some(role) => role
    case None => Student
  }

  function BaseItems(): seq<NavItem>
  {
    [ NavItem("Dashboard", "/dashboard", Home),
      NavItem("Lessons", "/dashboard/lessons", BookOpen),
      NavItem("Assignments", "/dashboard/assignments", FileText) ]
  }

  function RoleItems(role: Role): seq<NavItem>
  {
    match role
    case Student =>
      [ NavItem("My Progress", "/dashboard/progress", BarChart3),
        NavItem("Class", "/dashboard/class", Users) ]
    case Teacher =>
      [ NavItem("Students", "/dashboard/students", Users),
        NavItem("Analytics", "/dashboard/analytics", BarChart3),
        NavItem("Grading", "/dashboard/grading", FileText) ]
    case Parent =>
      [ NavItem("Children", "/dashboard/children", Users),
        NavItem("Progress", "/dashboard/progress", BarChart3) ]
    case Admin =>
      [ NavItem("Users", "/dashboard/users", Users),
        NavItem("Analytics", "/dashboard/analytics", BarChart3),
        NavItem("System", "/dashboard/system", Settings) ]
  }

  /** No two items share a name (the name is the render key). */
  predicate DistinctNames(items: seq<NavItem>)
  {
    forall i, j :: 0 <= i < j < |items| ==> items[i].name != items[j].name
  }

  /** No two items share a destination. */
  predicate DistinctHrefs(items: seq<NavItem>)
  {
    forall i, j :: 0 <= i < j < |items| ==> items[i].href != items[j].href
  }

  /** The navigation list for a role claim. It always starts with Dashboard,
      Lessons and Assignments in that order, has five entries for STUDENT,
      PARENT and any other claim and six for TEACHER and ADMIN, and within
      it names and destinations are pairwise distinct. */
  function NavigationItems(claim: Option<string>): (r: seq<NavItem>)
    ensures |r| == (if EffectiveRole(claim) in {Teacher, Admin} then 6 else 5)
    ensures r[..3] == [ NavItem("Dashboard", "/dashboard", Home),
                        NavItem("Lessons", "/dashboard/lessons", BookOpen),
                        NavItem("Assignments", "/dashboard/assignments", FileText) ]
    ensures r[3..] == RoleItems(EffectiveRole(claim))
    ensures DistinctNames(r) && DistinctHrefs(r)
  {
    var role := EffectiveRole(claim);
    ListDistinct(role);
    BaseItems() + RoleItems(role)
  }

  /** Each role's full list has distinct names and distinct destinations. */
  lemma ListDistinct(role: Role)
    ensures DistinctNames(BaseItems() + RoleItems(role))
    ensures DistinctHrefs(BaseItems() + RoleItems(role))
  {
  }

  /** A claim that is absent or not one of the four keys gets exactly the
      STUDENT list. */
  lemma FallbackIsStudent(claim: Option<string>)
    requires forall role: Role :: claim != Some(Key(role))
    ensures NavigationItems(claim) == NavigationItems(Some("STUDENT"))
    ensures NavigationItems(claim)[3..] ==
      [ NavItem("My Progress", "/dashboard/progress", BarChart3),
        NavItem("Class", "/dashboard/class", Users) ]
  {
  }

  lemma TeacherNavigation()
    ensures NavigationItems(Some("TEACHER")) == BaseItems() +
      [ NavItem("Students", "/dashboard/students", Users),
        NavItem("Analytics", "/dashboard/analytics", BarChart3),
        NavItem("Grading", "/dashboard/grading", FileText) ]
  {
  }

  lemma AdminNavigation()
    ensures NavigationItems(Some("ADMIN")) == BaseItems() +
      [ NavItem("Users", "/dashboard/users", Users),
        NavItem("Analytics", "/dashboard/analytics", BarChart3),
        NavItem("System", "/dashboard/system", Settings) ]
  {
  }

  /** An item is highlighted exactly when the current path is its destination. */
  predicate IsActive(pathname: string, item: NavItem)
  {
    pathname == item.href
  }

  /** How many items of a rendered list are highlighted for a path. */
  function CountActive(items: seq<NavItem>, pathname: string): nat
  {
    if items == [] then 0
    else (if IsActive(pathname, items[0]) then 1 else 0) + CountActive(items[1..], pathname)
  }

  /** No item is highlighted exactly when no item leads to the path. */
  lemma {:induction false} NoneActiveIff(items: seq<NavItem>, pathname: string)
    ensures CountActive(items, pathname) == 0 <==> forall i :: 0 <= i < |items| ==> items[i].href != pathname
  {
    if items != [] {
      NoneActiveIff(items[1..], pathname);
      assert forall i :: 1 <= i < |items| ==> items[i] == items[1..][i - 1];
    }
  }

  /** In a list with distinct destinations at most one item is highlighted. */
  lemma {:induction false} AtMostOneActive(items: seq<NavItem>, pathname: string)
    requires DistinctHrefs(items)
    ensures CountActive(items, pathname) <= 1
  {
    if items != [] {
      var rest := items[1..];
      assert forall i, j :: 0 <= i < j < |rest| ==> rest[i] == items[i + 1] && rest[j] == items[j + 1];
      AtMostOneActive(rest, pathname);
      if IsActive(pathname, items[0]) {
        NoneActiveIff(rest, pathname);
        assert forall i :: 0 <= i < |rest| ==> rest[i].href != pathname by {
          forall i | 0 <= i < |rest| ensures rest[i].href != pathname {
            assert rest[i] == items[i + 1];
          }
        }
      }
    }
  }

  /** For every role claim and every path, at most one sidebar item is active. */
  lemma NavigationAtMostOneActive(claim: Option<string>, pathname: string)
    ensures CountActive(NavigationItems(claim), pathname) <= 1
  {
    AtMostOneActive(NavigationItems(claim), pathname);
  }
}
