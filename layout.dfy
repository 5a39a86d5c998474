/** The page frame: the side menu filtered by the signed-in user's level, the role
    label under the user's name, and the logout button. */
module Layout {
  import opened Common
  import opened Records
  import opened Browser
  import opened Auth
  import AppRoutes

  datatype MenuItem = MenuItem(name: string, href: string, permission: int)

  /** The menu in display order, with the level each item needs. */
  const MenuItems: seq<MenuItem> := [
    MenuItem("Dashboard", "/", 1),
    MenuItem("Profissionais", "/profissionais", 1),
    MenuItem("Equipamentos", "/equipamentos", 1),
    MenuItem("Cidades", "/cidades", 3),
    MenuItem("Usuários", "/usuarios", 3),
    MenuItem("Auditoria", "/auditoria", 3)
  ]

  /** `filteredMenuItems`: the items whose level the user holds, in menu order. */
  function VisibleMenu(user: Option<ClientUser>): (r: seq<MenuItem>)
    ensures IsSubsequence(r, MenuItems)
    ensures forall item :: item in r <==> item in MenuItems && HasPermission(user, item.permission)
  {
    Filter(MenuItems, (item: MenuItem) => HasPermission(user, item.permission))
  }

  /** With nobody signed in, or a user whose level is not a number, the menu is empty. */
  lemma VisibleMenuEmptyWithoutLevel(user: Option<ClientUser>)
    requires user.None? || NivelAcesso(user.value).None?
    ensures VisibleMenu(user) == []
  {
  }

  /** A user whose level is at least another's sees every item the other sees, in the
      same order. */
  lemma {:induction false} VisibleMenuMonotone(a: ClientUser, b: ClientUser)
    requires NivelAcesso(a).Some? && NivelAcesso(b).Some?
    requires NivelAcesso(a).value <= NivelAcesso(b).value
    ensures IsSubsequence(VisibleMenu(Some(a)), VisibleMenu(Some(b)))
  {
    FilterMonotone(MenuItems, (item: MenuItem) => HasPermission(Some(a), item.permission),
                   (item: MenuItem) => HasPermission(Some(b), item.permission));
  }

  /** What each level sees: everything from level 3, the first three items at levels 1
      and 2, and nothing below level 1. */
  lemma VisibleMenuByLevel(u: ClientUser)
    requires NivelAcesso(u).Some?
    ensures NivelAcesso(u).value >= 3 ==> VisibleMenu(Some(u)) == MenuItems
    ensures 1 <= NivelAcesso(u).value < 3 ==> VisibleMenu(Some(u)) == MenuItems[..3]
    ensures NivelAcesso(u).value < 1 ==> VisibleMenu(Some(u)) == []
  {
    var p := (item: MenuItem) => HasPermission(Some(u), item.permission);
    MenuByThreshold(p, NivelAcesso(u).value);
  }

  /** The menu filtered by any test that keeps exactly the items of level at most n. */
  lemma MenuByThreshold(p: MenuItem -> bool, n: int)
    requires forall item :: p(item) <==> item.permission <= n
    ensures n >= 3 ==> Filter(MenuItems, p) == MenuItems
    ensures 1 <= n < 3 ==> Filter(MenuItems, p) == MenuItems[..3]
    ensures n < 1 ==> Filter(MenuItems, p) == []
  {
    MenuLevels();
    if n >= 3 {
      FilterAll(MenuItems, p);
    } else if n >= 1 {
      FilterPrefix(MenuItems, 3, p);
    }
  }

  /** The first three items need level 1 and the last three level 3. */
  lemma MenuLevels()
    ensures |MenuItems| == 6
    ensures forall i :: 0 <= i < 3 ==> MenuItems[i].permission == 1
    ensures forall i :: 3 <= i < 6 ==> MenuItems[i].permission == 3
  {
  }

    /** The item links to a declared signed-in route whose own level gate agrees with
      the item's level. */
  predicate AgreesWithRoute(item: MenuItem) {
    var rt := AppRoutes.RouteFor(item.href);
    && rt.Some? && rt.value.protectedRoute
    && (rt.value.requiredLevel.Some? <==> item.permission == 3)
    && (rt.value.requiredLevel.Some? ==> rt.value.requiredLevel.value == item.permission)
  }

  /** Every menu item agrees with the route it links to. */
  lemma MenuAgreesWithRoutes()
    ensures forall i :: 0 <= i < |MenuItems| ==> AgreesWithRoute(MenuItems[i])
  {
    forall i | 0 <= i < |MenuItems| {
      ItemAgreesWithRoute(i);
    }
  }

  lemma ItemAgreesWithRoute(i: nat)
    requires i < |MenuItems|
    ensures AgreesWithRoute(MenuItems[i])
  {
    var rs := AppRoutes.Routes;
    if i == 0 {
      assert MenuItems[0].href == "/";
      assert AppRoutes.RouteFor("/") == Some(rs[1]);
    } else if i == 1 {
      assert MenuItems[1].href == "/profissionais";
      assert AppRoutes.RouteFor("/profissionais") == Some(rs[2]);
    } else if i == 2 {
      assert MenuItems[2].href == "/equipamentos";
      assert AppRoutes.RouteFor("/equipamentos") == Some(rs[5]);
    } else if i == 3 {
      assert MenuItems[3].href == "/cidades";
      assert AppRoutes.RouteFor("/cidades") == Some(rs[6]);
    } else if i == 4 {
      assert MenuItems[4].href == "/usuarios";
      assert AppRoutes.RouteFor("/usuarios") == Some(rs[7]);
    } else {
      assert MenuItems[5].href == "/auditoria";
      assert AppRoutes.RouteFor("/auditoria") == Some(rs[8]);
    }
  }

  /** The label under the user's name: the level compared with `===`, so only a number
      matches. */
  function RoleLabel(user: Option<ClientUser>): (text: string)
    ensures text in {"Admin Global", "Admin Cidade", "Editor", "Visualização"}
  {
    var n := if user.Some? then NivelAcesso(user.value) else None;
    if n == Some(4) then "Admin Global"
    else if n == Some(3) then "Admin Cidade"
    else if n == Some(2) then "Editor"
    else "Visualização"
  }

  /** The label names the documented meaning of levels 2 to 4, and anything else reads
      as the viewing level. */
  lemma RoleLabelOfLevel(u: ClientUser)
    ensures NivelAcesso(u) == Some(AdminGlobal) <==> RoleLabel(Some(u)) == "Admin Global"
    ensures NivelAcesso(u) == Some(AdminCidade) <==> RoleLabel(Some(u)) == "Admin Cidade"
    ensures NivelAcesso(u) == Some(Editor) <==> RoleLabel(Some(u)) == "Editor"
    ensures NivelAcesso(u).None? || NivelAcesso(u).value !in {2, 3, 4} <==> RoleLabel(Some(u)) == "Visualização"
    ensures RoleLabel(None) == "Visualização"
  {
  }

  /** The logout button: the session is cleared, then the router goes to the login page
      without a page load. */
  method HandleLogout(provider: AuthProvider, w: Window)
    requires w.Valid()
    modifies provider, w
    ensures w.Valid()
    ensures w.storage == Cleared(old(w.storage)) && provider.user.None?
    ensures w.path == "/login" && w.reloaded == old(w.reloaded)
    ensures provider.loading == old(provider.loading)
  {
    provider.Logout(w);
    w.Navigate("/login");
  }
}
