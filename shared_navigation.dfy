/**
 * `SharedNavigation`: the three links of the side menu, which of them leave
 * the current application (and so need an absolute URL), the URL each one
 * gets, and which one is shown as active for the current pathname.
 */
module SharedNavigation {
  import opened Text
  import opened Urls

  /** A menu entry; `app` is the application whose base URL a cross-application link uses. */
  datatype NavLink = NavLink(href: string, caption: string, app: string)

  /** `navLinks`, in menu order.  The cards link belongs to the home application. */
  const NavLinks: seq<NavLink> := [
    NavLink("/home", "Início", "home"),
    NavLink("/cards", "Cartões", "home"),
    NavLink("/investments", "Investimentos", "investments")
  ]

  /** `isInInvestmentsApp`: the pathname is `/` or starts with `/investments`. */
  predicate InInvestmentsApp(pathname: string) {
    pathname == "/" || StartsWith(pathname, "/investments")
  }

  /**
   * `isCrossAppNavigation`: from the investments application the home and
   * cards links leave it; from anywhere else only the investments link does.
   */
  function IsCrossAppNavigation(pathname: string, linkHref: string): (r: bool)
    ensures InInvestmentsApp(pathname) ==> (r <==> linkHref == "/home" || linkHref == "/cards")
    ensures !InInvestmentsApp(pathname) ==> (r <==> linkHref == "/investments")
  {
    if InInvestmentsApp(pathname) then linkHref == "/home" || linkHref == "/cards"
    else linkHref == "/investments"
  }

  /**
   * `getNavigationUrl`: a link that stays in the application keeps its
   * path; the investments link gets the base URL (with `/investments`
   * appended outside production); any other cross-application link gets
   * the base URL followed by its path.
   */
  function NavigationUrl(env: Env, pathname: string, link: NavLink): (url: string)
    ensures !IsCrossAppNavigation(pathname, link.href) ==> url == link.href
    ensures IsCrossAppNavigation(pathname, link.href) && link.app == "investments" ==>
      url == (if IsProduction(env) then AppUrl(env, link.app) else AppUrl(env, link.app) + "/investments")
    ensures IsCrossAppNavigation(pathname, link.href) && link.app != "investments" ==>
      url == AppUrl(env, link.app) + link.href
  {
    if !IsCrossAppNavigation(pathname, link.href) then link.href
    else
      var baseUrl := AppUrl(env, link.app);
      if link.app == "investments" then (if IsProduction(env) then baseUrl else baseUrl + "/investments")
      else baseUrl + link.href
  }

  /** `isActive`: the investments link throughout the investments application, otherwise the link the pathname starts with. */
  predicate IsActive(pathname: string, link: NavLink) {
    if InInvestmentsApp(pathname) && link.href == "/investments" then true
    else StartsWith(pathname, link.href)
  }

  /* ---------------------------------- properties ---------------------------------- */

  /** Exactly the links of the other application are cross-application links. */
  lemma CrossAppMeansOtherApp(pathname: string, i: nat)
    requires i < |NavLinks|
    ensures IsCrossAppNavigation(pathname, NavLinks[i].href) <==>
      (InInvestmentsApp(pathname) <==> NavLinks[i].href != "/investments")
  {
  }

  /**
   * Every menu URL is either the link's own path or lies under the home
   * application's base URL, which serves both the cards and, in
   * production, the investments pages.
   */
  lemma MenuUrlsStayUnderHome(env: Env, pathname: string, i: nat)
    requires i < |NavLinks|
    ensures var url := NavigationUrl(env, pathname, NavLinks[i]);
      url == NavLinks[i].href || StartsWith(url, HomeUrl(env))
  {
    var link := NavLinks[i];
    var url := NavigationUrl(env, pathname, link);
    if IsCrossAppNavigation(pathname, link.href) {
      var base := HomeUrl(env);
      assert AppUrl(env, link.app) == base;
      if link.app == "investments" && IsProduction(env) {
        assert url == base;
      } else if link.app == "investments" {
        StartsWithOwnPrefix(base, "/investments");
      } else {
        StartsWithOwnPrefix(base, link.href);
      }
    }
  }

  lemma StartsWithOwnPrefix(p: string, rest: string)
    ensures StartsWith(p + rest, p)
  {
    assert (p + rest)[..|p|] == p;
  }

  /** An active entry's path matches the pathname in its second character, or the pathname is `/` and the entry is the investments one. */
  lemma ActiveSecondChar(pathname: string, i: nat)
    requires i < |NavLinks| && IsActive(pathname, NavLinks[i])
    ensures (pathname == "/" && i == 2) || (|pathname| >= 2 && pathname[1] == NavLinks[i].href[1])
  {
    if pathname != "/" && InInvestmentsApp(pathname) {
      assert pathname[..12] == "/investments";
    }
  }

  /** No pathname makes two menu entries active at once. */
  lemma AtMostOneActive(pathname: string, i: nat, j: nat)
    requires i < |NavLinks| && j < |NavLinks|
    ensures IsActive(pathname, NavLinks[i]) && IsActive(pathname, NavLinks[j]) ==> i == j
  {
    if IsActive(pathname, NavLinks[i]) && IsActive(pathname, NavLinks[j]) {
      ActiveSecondChar(pathname, i);
      ActiveSecondChar(pathname, j);
    }
  }

  /** Throughout the investments application its own link is the active one. */
  lemma InvestmentsPagesHighlightInvestments(pathname: string)
    requires InInvestmentsApp(pathname)
    ensures IsActive(pathname, NavLinks[2])
    ensures !IsActive(pathname, NavLinks[0]) && !IsActive(pathname, NavLinks[1])
  {
    if !(pathname == "/") {
      assert pathname[1] == 'i';
    }
  }
}
