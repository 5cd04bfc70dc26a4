/** The application shell: which navigation entries a user sees, which one
    is highlighted for the current path, the role badge and the user name
    shown in the header. */
module AppLayout {
  import opened Common
  import opened Seqs
  import opened Text
  import opened AuthContext

  /** A navigation entry; `roles` is absent for entries everybody sees. */
  datatype NavItem = NavItem(caption: string, path: string, roles: Option<seq<Role>>)

  /** The declared entries, in menu order. */
  const NavItems: seq<NavItem> := [
    NavItem("Planta", "/dashboard", None),
    NavItem("Mis Reportes", "/reports", None),
    NavItem("Estadísticas", "/stats", Some([Supervisor, Admin])),
    NavItem("Administrar", "/admin", Some([Admin]))
  ]

  /** The filter predicate: unrestricted entries always; entries open to
      administrators when the user is one; entries open to supervisors when
      the user is a supervisor or an administrator. */
  predicate Visible(item: NavItem, isAdmin: bool, isSupervisor: bool) {
    if item.roles.None? then true
    else if Admin in item.roles.value && isAdmin then true
    else if Supervisor in item.roles.value && (isSupervisor || isAdmin) then true
    else false
  }

  /** The entries shown to a user with the given flags. */
  function FilteredNavItems(isAdmin: bool, isSupervisor: bool): (r: seq<NavItem>)
    ensures |r| <= |NavItems|
  {
    Filter(NavItems, VisibleTo(isAdmin, isSupervisor))
  }

  /** `Visible` for fixed flags, as a filter predicate. */
  function VisibleTo(isAdmin: bool, isSupervisor: bool): NavItem -> bool {
    (item: NavItem) => Visible(item, isAdmin, isSupervisor)
  }

  /** The menu for every combination of flags: the plant and report
      entries always, the statistics entry exactly for supervisors and
      administrators, the administration entry exactly for administrators,
      always in the declared order. */
  lemma FilteredNavItemsExactly(isAdmin: bool, isSupervisor: bool)
    ensures FilteredNavItems(isAdmin, isSupervisor)
      == [NavItems[0], NavItems[1]]
         + (if isSupervisor || isAdmin then [NavItems[2]] else [])
         + (if isAdmin then [NavItems[3]] else [])
  {
    var p := VisibleTo(isAdmin, isSupervisor);
    var n0, n1, n2, n3 := NavItems[0], NavItems[1], NavItems[2], NavItems[3];
    assert NavItems == [n0, n1, n2, n3];
    FilterFourShape(n0, n1, n2, n3, p, isSupervisor || isAdmin, isAdmin);
  }

  /** Filtering four elements of which the first two are kept. */
  lemma FilterFourShape<T>(n0: T, n1: T, n2: T, n3: T, p: T -> bool, keep2: bool, keep3: bool)
    requires p(n0) && p(n1) && p(n2) == keep2 && p(n3) == keep3
    ensures Filter([n0, n1, n2, n3], p)
      == [n0, n1] + (if keep2 then [n2] else []) + (if keep3 then [n3] else [])
  {
    FilterOfFour(n0, n1, n2, n3, p);
    var k2 := if keep2 then [n2] else [];
    var k3 := if keep3 then [n3] else [];
    assert Kept(n0, p) == [n0] && Kept(n1, p) == [n1];
    assert Kept(n2, p) == k2 && Kept(n3, p) == k3;
    ConcatFour([n0], [n1], k2, k3);
  }

  lemma ConcatFour<T>(a: seq<T>, b: seq<T>, c: seq<T>, d: seq<T>)
    ensures a + (b + (c + d)) == (a + b) + c + d
  {
  }

  /** What filtering keeps of one element. */
  function Kept<T>(x: T, p: T -> bool): seq<T> {
    if p(x) then [x] else []
  }

  /** Filtering a four-element sequence, element by element. */
  lemma FilterOfFour<T>(a: T, b: T, c: T, d: T, p: T -> bool)
    ensures Filter([a, b, c, d], p) == Kept(a, p) + (Kept(b, p) + (Kept(c, p) + Kept(d, p)))
  {
    var cd := [c] + [d];
    var bcd := [b] + cd;
    assert [a, b, c, d] == [a] + bcd;
    FilterSingle(a, p);
    FilterSingle(b, p);
    FilterSingle(c, p);
    FilterSingle(d, p);
    FilterAppend([c], [d], p);
    var fcd := Kept(c, p) + Kept(d, p);
    assert Filter(cd, p) == fcd;
    FilterAppend([b], cd, p);
    var fbcd := Kept(b, p) + fcd;
    assert Filter(bcd, p) == fbcd;
    FilterAppend([a], bcd, p);
    assert Filter([a, b, c, d], p) == Kept(a, p) + fbcd;
  }

  lemma FilterSingle<T>(x: T, p: T -> bool)
    ensures Filter([x], p) == Kept(x, p)
  {
    assert [x][1..] == [];
  }

  /** The mobile bottom bar: the first four shown entries. */
  function BottomNavItems(isAdmin: bool, isSupervisor: bool): (r: seq<NavItem>)
    ensures |r| <= 4 && |r| <= |FilteredNavItems(isAdmin, isSupervisor)|
    ensures r == FilteredNavItems(isAdmin, isSupervisor)[..|r|]
  {
    var items := FilteredNavItems(isAdmin, isSupervisor);
    var shown := if |items| <= 4 then |items| else 4;
    items[..shown]
  }

  /** With four declared entries, the bottom bar never drops one. */
  lemma BottomNavShowsEverything(isAdmin: bool, isSupervisor: bool)
    ensures BottomNavItems(isAdmin, isSupervisor) == FilteredNavItems(isAdmin, isSupervisor)
  {
  }

  /** The highlight rule: the path itself or anything below it. */
  predicate IsActive(pathname: string, path: string) {
    pathname == path || StartsWith(pathname, path + "/")
  }

  /** An entry is highlighted exactly when its path is a prefix of the
      current path that ends there or at a `/`; so `/reports-old` does not
      highlight `/reports`. */
  lemma IsActiveIffSegmentPrefix(pathname: string, path: string)
    ensures IsActive(pathname, path)
      <==> StartsWith(pathname, path) && (|pathname| == |path| || pathname[|path|] == '/')
  {
    if StartsWith(pathname, path) && |pathname| > |path| && pathname[|path|] == '/' {
      assert pathname[..|path| + 1] == pathname[..|path|] + [pathname[|path|]];
    }
    if StartsWith(pathname, path + "/") {
      assert pathname[..|path|] == pathname[..|path| + 1][..|path|];
    }
  }

  /** The declared paths are never prefixes of one another's segments, so
      at most one entry is highlighted at a time. */
  lemma AtMostOneActive(pathname: string, i: nat, j: nat)
    requires i < |NavItems| && j < |NavItems| && i != j
    ensures !(IsActive(pathname, NavItems[i].path) && IsActive(pathname, NavItems[j].path))
  {
    IsActiveIffSegmentPrefix(pathname, NavItems[i].path);
    IsActiveIffSegmentPrefix(pathname, NavItems[j].path);
  }

  /** The role badge, by priority. */
  function RoleLabel(isAdmin: bool, isSupervisor: bool): string {
    if isAdmin then "Administrador"
    else if isSupervisor then "Supervisor"
    else "Operador"
  }

  /** The badge of a role list: an administrator row wins over a supervisor
      row, and a list with neither reads as an operator, whatever else it
      holds. */
  lemma RoleLabelOfRoles(roles: seq<UserRole>)
    ensures var f := FlagsOf(roles);
      var shown := RoleLabel(f.isAdmin, f.isSupervisor);
      (shown == "Administrador" <==> exists u :: u in roles && u.role == Admin)
      && (shown == "Supervisor" <==> (exists u :: u in roles && u.role == Supervisor)
                                     && !(exists u :: u in roles && u.role == Admin))
      && (shown == "Operador" <==> forall u :: u in roles ==> u.role == Operador)
  {
    var f := FlagsOf(roles);
    if !(forall u :: u in roles ==> u.role == Operador) {
      var u :| u in roles && u.role != Operador;
      assert u.role == Admin || u.role == Supervisor;
    }
  }

  /** The header's user name: the part of the e-mail address before the
      first `@`, when there is an address. */
  function UserName(email: Option<string>): (r: Option<string>)
    ensures r.Some? <==> email.Some?
    ensures r.Some? ==> '@' !in r.value && StartsWith(email.value, r.value)
    ensures r.Some? && '@' !in email.value ==> r.value == email.value
  {
    match email
    case None => None
    case Some(address) =>
      var name := Split(address, '@')[0];
      assert StartsWith(address, name) by {
        if '@' in address {
          var i := IndexOf(address, '@');
          assert name == address[..i];
        }
      }
      Some(name)
  }
}
