/** The navigation bar (components/Navbar.tsx): the three links and which
    one is active, the logo, the language toggle and the mobile menu. */
module Navbar {
  import opened Localization

  /** One entry of `navItems`. */
  datatype NavItem = NavItem(path: string, text: string)

  /** A link as the bar draws it: where it goes, its text, and whether it
      is highlighted as the current page. */
  datatype Link = Link(path: string, text: string, active: bool)

  /** The logo's title and subtitle. */
  datatype Logo = Logo(title: string, subtitle: string)

  /** What the bar shows. The mobile list is empty while the menu is closed. */
  datatype Bar = Bar(logo: Logo, desktop: seq<Link>, toggleLabel: string, mobile: seq<Link>)

  /** The paths of the three pages the bar links to, in order. */
  const Paths := ["/", "/cars", "/sell"]

  /** `navItems`: home, all cars and sell, labelled through `t`. */
  function NavItems(c: Context): (items: seq<NavItem>)
    ensures |items| == |Paths| == 3
    ensures forall i :: 0 <= i < |items| ==> items[i].path == Paths[i]
    ensures items[0].text == c.t("home") && items[1].text == c.t("cars") && items[2].text == c.t("sell")
  {
    [NavItem("/", c.t("home")), NavItem("/cars", c.t("cars")), NavItem("/sell", c.t("sell"))]
  }

  /** `isActive(path)`: the path is the current location's. */
  predicate IsActive(pathname: string, path: string)
  {
    pathname == path
  }

  /** The three paths are distinct, so at most one item is active, and one
      is exactly when the location is one of the three pages. */
  lemma AtMostOneActive(c: Context, pathname: string)
    ensures forall i, j :: 0 <= i < j < |NavItems(c)| ==>
      !(IsActive(pathname, NavItems(c)[i].path) && IsActive(pathname, NavItems(c)[j].path))
    ensures (exists i :: 0 <= i < |NavItems(c)| && IsActive(pathname, NavItems(c)[i].path)) <==> pathname in Paths
  {
    var items := NavItems(c);
    if pathname in Paths {
      var i :| 0 <= i < |Paths| && Paths[i] == pathname;
      assert IsActive(pathname, items[i].path);
    }
  }

  /** The language the toggle switches to: the other one. */
  function Toggled(l: Language): (r: Language)
    ensures r != l
  {
    if l == En then Ar else En
  }

  /** Toggling twice restores the language. */
  lemma ToggleTwice(l: Language)
    ensures Toggled(Toggled(l)) == l
  {
  }

  /** How a language names itself on the toggle. */
  function SelfName(l: Language): string
  {
    match l
    case Ar => "عربي"
    case En => "EN"
  }

  /** The toggle's label, written in the language it switches to. */
  function ToggleLabel(l: Language): (text: string)
    ensures l == En ==> text == "عربي"
    ensures l == Ar ==> text == "EN"
  {
    if l == En then "عربي" else "EN"
  }

  /** The label names the language a click switches to. */
  lemma ToggleLabelNamesTarget(l: Language)
    ensures ToggleLabel(l) == SelfName(Toggled(l))
    ensures ToggleLabel(l) != SelfName(l)
  {
  }

  /** The logo: the Arabic name with no subtitle right-to-left, else the
      Latin name over its subtitle. */
  function LogoFor(isRTL: bool): (g: Logo)
    ensures isRTL ==> g == Logo("سفير العربيات", "")
    ensures !isRTL ==> g == Logo("SAFER", "EL3ARBIAT")
    ensures g.subtitle == "" <==> isRTL
  {
    if isRTL then Logo("سفير العربيات", "") else Logo("SAFER", "EL3ARBIAT")
  }

  /** The links drawn for a list of items at a location. */
  function Links(items: seq<NavItem>, pathname: string): (links: seq<Link>)
    ensures |links| == |items|
    ensures forall i :: 0 <= i < |items| ==>
      links[i] == Link(items[i].path, items[i].text, IsActive(pathname, items[i].path))
  {
    if items == [] then []
    else [Link(items[0].path, items[0].text, IsActive(pathname, items[0].path))] + Links(items[1..], pathname)
  }

  /** The bar for a context, a location and the menu flag. */
  function Render(c: Context, pathname: string, isOpen: bool): (b: Bar)
    ensures b.logo == LogoFor(c.isRTL)
    ensures b.desktop == Links(NavItems(c), pathname)
    ensures b.toggleLabel == ToggleLabel(c.language)
    ensures b.mobile == (if isOpen then b.desktop else [])
  {
    var links := Links(NavItems(c), pathname);
    Bar(LogoFor(c.isRTL), links, ToggleLabel(c.language), if isOpen then links else [])
  }

  /** At most one drawn link is highlighted. */
  lemma OneHighlight(c: Context, pathname: string, isOpen: bool)
    ensures forall i, j :: 0 <= i < j < |Render(c, pathname, isOpen).desktop| ==>
      !(Render(c, pathname, isOpen).desktop[i].active && Render(c, pathname, isOpen).desktop[j].active)
  {
    AtMostOneActive(c, pathname);
  }

  /** The bar's own state: the mobile menu flag, next to the language
      provider it reads and writes. */
  class NavigationBar {
    var isOpen: bool
    const provider: LanguageProvider

    /** Mounting: the menu is closed. */
    constructor (p: LanguageProvider)
      ensures !isOpen && provider == p
    {
      isOpen := false;
      provider := p;
    }

    /** The menu button: it flips the menu flag. */
    method ToggleMenu()
      modifies this
      ensures isOpen == !old(isOpen)
    {
      isOpen := !isOpen;
    }

    /** A click on a mobile link: it closes the menu. */
    method CloseMenu()
      modifies this
      ensures !isOpen
    {
      isOpen := false;
    }

    /** `toggleLanguage`: switch the provider to the other language. */
    method ToggleLanguage()
      requires provider.Valid()
      modifies provider
      ensures provider.Valid()
      ensures provider.language == Toggled(old(provider.language))
      ensures provider.Observed() == AfterSetLanguage(old(provider.Observed()), Toggled(old(provider.language)))
    {
      provider.SetLanguage(Toggled(provider.language));
    }
  }
}
