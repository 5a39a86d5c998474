/** The client's route table: which page each path renders, whether it sits behind the
    signed-in gate, and the access level a nested gate adds. */
module AppRoutes {
  import opened Common

  datatype Page =
    | LoginPage | Dashboard | Profissionais | ProfissionalForm | Equipamentos
    | Cidades | Usuarios | Auditoria

  /** One declared route. `protectedRoute` says the route is inside the outer gate;
      `requiredLevel` is the level a nested gate demands on top of it. */
  datatype Route = Route(path: string, protectedRoute: bool, requiredLevel: Option<int>, page: Page)

  /** The routes in declaration order: the login page, then the pages inside the
      outer gate, three of them behind a level-3 gate. */
  const Routes: seq<Route> := [
    Route("/login", false, None, LoginPage),
    Route("/", true, None, Dashboard),
    Route("/profissionais", true, None, Profissionais),
    Route("/profissionais/novo", true, None, ProfissionalForm),
    Route("/profissionais/editar/:id", true, None, ProfissionalForm),
    Route("/equipamentos", true, None, Equipamentos),
    Route("/cidades", true, Some(3), Cidades),
    Route("/usuarios", true, Some(3), Usuarios),
    Route("/auditoria", true, Some(3), Auditoria)
  ]

  /** The first route of routes declared for a path pattern. */
  function RouteIn(routes: seq<Route>, path: string): Option<Route> {
    if routes == [] then None
    else if routes[0].path == path then Some(routes[0])
    else RouteIn(routes[1..], path)
  }

  /** The route declared for a path pattern. */
  function RouteFor(path: string): Option<Route> {
    RouteIn(Routes, path)
  }

  /** The route found for a path is a declared route with that path, and none is found
      only when no route declares the path. */
  lemma {:induction false} RouteInDeclared(routes: seq<Route>, path: string)
    ensures RouteIn(routes, path).Some? ==>
              RouteIn(routes, path).value in routes && RouteIn(routes, path).value.path == path
    ensures RouteIn(routes, path).None? <==> forall i :: 0 <= i < |routes| ==> routes[i].path != path
  {
    if routes != [] {
      RouteInDeclared(routes[1..], path);
      if routes[0].path != path {
        forall i | 0 <= i < |routes[1..]| ensures routes[1..][i] == routes[i + 1] {}
      }
    }
  }

  /** The login page is the only route outside the signed-in gate. */
  lemma OnlyLoginIsOpen()
    ensures forall rt :: rt in Routes ==> (!rt.protectedRoute <==> rt.path == "/login")
    ensures RouteFor("/login") == Some(Route("/login", false, None, LoginPage))
  {
    assert Routes[0].path == "/login";
  }

  /** Cities, users and the audit log need level 3; every other signed-in page needs no
      more than a session. */
  lemma RouteLevels()
    ensures forall rt :: rt in Routes ==>
              (rt.requiredLevel.Some? <==> rt.path == "/cidades" || rt.path == "/usuarios" || rt.path == "/auditoria")
    ensures forall rt :: rt in Routes && rt.requiredLevel.Some? ==> rt.requiredLevel.value == 3
  {
    forall rt | rt in Routes
      ensures rt.requiredLevel.Some? <==> rt.path == "/cidades" || rt.path == "/usuarios" || rt.path == "/auditoria"
      ensures rt.requiredLevel.Some? ==> rt.requiredLevel.value == 3
    {
      var i :| 0 <= i < |Routes| && Routes[i] == rt;
      if i < 6 {
        assert rt.requiredLevel.None? && |rt.path| != 8 && |rt.path| != 9 && |rt.path| != 10;
      }
    }
  }

  /** Creating and editing a professional render the same form. */
  lemma FormRoutesShareThePage()
    ensures RouteFor("/profissionais/novo").Some? && RouteFor("/profissionais/editar/:id").Some?
    ensures RouteFor("/profissionais/novo").value.page == ProfissionalForm
    ensures RouteFor("/profissionais/editar/:id").value.page == ProfissionalForm
  {
    assert Routes[3].path == "/profissionais/novo" && Routes[4].path == "/profissionais/editar/:id";
  }
}
