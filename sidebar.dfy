/**
 * The navigation menu (components/layout/Sidebar.tsx): the table of links
 * with the roles allowed to see each, the filter by the signed-in user's
 * role, the highlighted link, and the page each role lands on after
 * signing in (App.tsx).
 */
module Sidebar {
  import opened Types
  import opened Seqs

  /** The `Page` union of App.tsx. */
  datatype Page =
    | Dashboard | Materiais | Entradas | Saidas | Consumo | Parceiros | Notas
    | Colaboradores | Faturamento | Inventario | GerenciarAcessos | ChatIa | Relatorios

  datatype NavLink = NavLink(page: Page, caption: string, roles: seq<Role>)

  const ALL_ROLES: seq<Role> := [Operador, Gerente, Diretor]
  const MANAGERS: seq<Role> := [Gerente, Diretor]
  const DIRECTOR_ONLY: seq<Role> := [Diretor]

  /** `navLinks`, in menu order. */
  const NAV_LINKS: seq<NavLink> := [
    NavLink(Dashboard, "Dashboard", MANAGERS),
    NavLink(ChatIa, "Chat IA", MANAGERS),
    NavLink(Materiais, "Materiais", MANAGERS),
    NavLink(Entradas, "Entradas", ALL_ROLES),
    NavLink(Saidas, "Saídas", ALL_ROLES),
    NavLink(Page.Consumo, "Consumo", ALL_ROLES),
    NavLink(Inventario, "Inventário", ALL_ROLES),
    NavLink(Parceiros, "Parceiros", MANAGERS),
    NavLink(Colaboradores, "Colaboradores", DIRECTOR_ONLY),
    NavLink(Relatorios, "Relatórios", MANAGERS),
    NavLink(GerenciarAcessos, "Gerenciar Acessos", DIRECTOR_ONLY),
    NavLink(Notas, "Notas Fiscais", DIRECTOR_ONLY),
    NavLink(Faturamento, "Faturamento", DIRECTOR_ONLY)
  ]

  /** `user && link.roles.includes(user.role)`. */
  predicate Shown(user: Option<User>, link: NavLink)
  {
    user.Some? && user.value.role in link.roles
  }

  function Pages(links: seq<NavLink>): seq<Page>
  {
    seq(|links|, i requires 0 <= i < |links| => links[i].page)
  }

  /** The pages of the menu entries shown to `user`, in menu order. */
  function VisiblePages(user: Option<User>): seq<Page>
  {
    Pages(Filter(NAV_LINKS, (l: NavLink) => Shown(user, l)))
  }

  /** Whether a role can reach a page from the menu. */
  predicate CanSee(role: Role, page: Page)
  {
    exists k :: 0 <= k < |NAV_LINKS| && NAV_LINKS[k].page == page && role in NAV_LINKS[k].roles
  }

  /** The index of each page in the table. */
  function IndexOf(page: Page): (k: nat)
    ensures k < |NAV_LINKS| && NAV_LINKS[k].page == page
  {
    match page
    case Dashboard => 0
    case ChatIa => 1
    case Materiais => 2
    case Entradas => 3
    case Saidas => 4
    case Consumo => 5
    case Inventario => 6
    case Parceiros => 7
    case Colaboradores => 8
    case Relatorios => 9
    case GerenciarAcessos => 10
    case Notas => 11
    case Faturamento => 12
  }

  /**
   * Entry by entry: each entry's page has that entry's index, an Operador is
   * listed on exactly the fourth to seventh entries, a Diretor on all of
   * them, and a Gerente wherever an Operador is.
   */
  lemma TableAt(k: nat)
    requires k < |NAV_LINKS|
    ensures IndexOf(NAV_LINKS[k].page) == k
    ensures Operador in NAV_LINKS[k].roles <==> 3 <= k < 7
    ensures Operador in NAV_LINKS[k].roles ==> Gerente in NAV_LINKS[k].roles
    ensures Diretor in NAV_LINKS[k].roles
  {
  }

  /** Every page of the union has exactly one entry in the table. */
  lemma EachPageOnce(page: Page)
    ensures forall k :: 0 <= k < |NAV_LINKS| && NAV_LINKS[k].page == page ==> k == IndexOf(page)
    ensures Distinct(Pages(NAV_LINKS))
  {
    forall k | 0 <= k < |NAV_LINKS| {
      TableAt(k);
    }
  }

  /** Whether `role` sees `page`, read off the page's one entry. */
  lemma CanSeeAt(role: Role, page: Page)
    ensures CanSee(role, page) <==> role in NAV_LINKS[IndexOf(page)].roles
  {
    EachPageOnce(page);
  }

  /**
   * A Diretor sees every page; an Operador sees exactly the entry, exit,
   * consumption and inventory pages; whatever an Operador sees a Gerente
   * sees, and whatever a Gerente sees a Diretor sees.
   */
  lemma VisibilitySpec(page: Page)
    ensures CanSee(Diretor, page)
    ensures CanSee(Operador, page) <==> page in {Entradas, Saidas, Page.Consumo, Inventario}
    ensures CanSee(Operador, page) ==> CanSee(Gerente, page)
    ensures CanSee(Gerente, page) ==> CanSee(Diretor, page)
  {
    CanSeeAt(Diretor, page);
    CanSeeAt(Operador, page);
    CanSeeAt(Gerente, page);
    TableAt(IndexOf(page));
  }

  lemma OperadorMenu(name: string)
    ensures VisiblePages(Some(User(name, Operador))) == [Entradas, Saidas, Page.Consumo, Inventario]
  {
    var op := (l: NavLink) => Shown(Some(User(name, Operador)), l);
    forall i | 0 <= i < |NAV_LINKS|
      ensures op(NAV_LINKS[i]) <==> 3 <= i < 7
    {
      TableAt(i);
    }
    FilterRange(NAV_LINKS, op, 3, 7);
  }

  lemma DiretorMenu(name: string)
    ensures VisiblePages(Some(User(name, Diretor))) == Pages(NAV_LINKS)
  {
    var di := (l: NavLink) => Shown(Some(User(name, Diretor)), l);
    forall i | 0 <= i < |NAV_LINKS|
      ensures di(NAV_LINKS[i])
    {
      TableAt(i);
    }
    FilterAllOrNone(NAV_LINKS, di);
  }

  /**
   * Without a user the menu is empty; an Operador's menu lists exactly the
   * entry, exit, consumption and inventory pages, in that order; a
   * Diretor's lists every page of the table, in table order.
   */
  lemma VisiblePagesSpec(name: string)
    ensures VisiblePages(None) == []
    ensures VisiblePages(Some(User(name, Operador))) == [Entradas, Saidas, Page.Consumo, Inventario]
    ensures VisiblePages(Some(User(name, Diretor))) == Pages(NAV_LINKS)
  {
    OperadorMenu(name);
    DiretorMenu(name);
    FilterAllOrNone(NAV_LINKS, (l: NavLink) => Shown(None, l));
  }

  /** The page `App` opens after sign-in. */
  function LandingPage(role: Role): Page
  {
    if role == Operador then Entradas else Dashboard
  }

  /** Each role lands on a page its own menu offers. */
  lemma LandingPageVisible(role: Role)
    ensures CanSee(role, LandingPage(role))
  {
    CanSeeAt(role, LandingPage(role));
  }

  /** A link is drawn highlighted when its page is the active one. */
  predicate Highlighted(activePage: Page, link: NavLink)
  {
    link.page == activePage
  }

  /** Exactly one menu entry is highlighted: the active page's own one. */
  lemma HighlightSpec(activePage: Page)
    ensures Highlighted(activePage, NAV_LINKS[IndexOf(activePage)])
    ensures forall k :: 0 <= k < |NAV_LINKS| && Highlighted(activePage, NAV_LINKS[k]) ==> k == IndexOf(activePage)
  {
    EachPageOnce(activePage);
  }
}
