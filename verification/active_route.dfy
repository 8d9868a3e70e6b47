/** The analytics navigation (src/app/analytics/layout.tsx and
    src/components/Sidebar.tsx): which links are highlighted for the current
    path, and where the layout shows a section header. */
module ActiveRoute {
  import opened Options
  import opened Text

  /** `pathname === href || pathname.startsWith(href + "/")`. */
  predicate IsActive(pathname: string, href: string)
  {
    pathname == href || StartsWith(pathname, href + "/")
  }

  /** A link is active on its own path and below it, and only there: a longer
      path must continue with a "/" right after `href`. */
  lemma IsActiveMeaning(pathname: string, href: string)
    ensures IsActive(pathname, href) <==>
            pathname == href
            || (|href| < |pathname| && pathname[..|href|] == href && pathname[|href|] == '/')
  {
    if |href| < |pathname| && pathname[..|href|] == href && pathname[|href|] == '/' {
      assert pathname[..|href| + 1] == pathname[..|href|] + [pathname[|href|]];
    }
    if StartsWith(pathname, href + "/") {
      assert pathname[..|href|] == (href + "/")[..|href|];
    }
  }

  /** Every path below `href` activates it, whatever follows the "/". */
  lemma ActiveBelow(href: string, rest: string)
    ensures IsActive(href + "/" + rest, href)
  {
    assert (href + "/" + rest)[..|href + "/"|] == href + "/";
  }

  /** Without the "/" boundary a path that merely extends `href` does not
      activate it. */
  lemma NoBoundaryInactive(href: string, rest: string)
    requires rest != [] && rest[0] != '/'
    ensures !IsActive(href + rest, href)
  {
    IsActiveMeaning(href + rest, href);
    assert (href + rest)[|href|] == rest[0];
  }

  lemma AdsNotActiveOnAdsx()
    ensures !IsActive("/analytics/adsx", "/analytics/ads")
  {
    NoBoundaryInactive("/analytics/ads", "x");
    assert "/analytics/adsx" == "/analytics/ads" + "x";
  }

  /** A navigation link; only the layout's links may carry a section. */
  datatype NavLink = NavLink(href: string, title: string, section: Option<string>)

  /** What one entry of the rendered list shows. */
  datatype NavItem = NavItem(link: NavLink, active: bool, showSection: bool)

  /** `"section" in l && (!next || !next.section)` with `next = links[idx - 1]`
      (undefined before the first link, and an empty section is falsy). */
  predicate ShowSection(links: seq<NavLink>, idx: int)
    requires 0 <= idx < |links|
  {
    links[idx].section.Some?
    && (idx == 0 || !(links[idx - 1].section.Some? && links[idx - 1].section.value != ""))
  }

  /** `links.map((l, idx) => ...)`. */
  function NavItems(pathname: string, links: seq<NavLink>): (items: seq<NavItem>)
    ensures |items| == |links|
    ensures forall i :: 0 <= i < |links| ==> items[i].link == links[i]
  {
    seq(|links|, i requires 0 <= i < |links| =>
      NavItem(links[i], IsActive(pathname, links[i].href), ShowSection(links, i)))
  }

  /** Every link renders once, in order, highlighted exactly when active, and
      a header appears only on a sectioned link whose predecessor has none. */
  lemma NavItemsMeaning(pathname: string, links: seq<NavLink>, i: int)
    requires 0 <= i < |links|
    ensures var it := NavItems(pathname, links)[i];
            && it.link == links[i]
            && (it.active <==> pathname == links[i].href || StartsWith(pathname, links[i].href + "/"))
            && (it.showSection ==> links[i].section.Some?)
            && (it.showSection ==> i == 0 || links[i - 1].section.None? || links[i - 1].section.value == "")
  {
  }

  function Link(href: string, title: string): NavLink
  {
    NavLink(href, title, None)
  }

  /** The analytics layout's links (layout.tsx lines 11-25). */
  const LayoutLinks: seq<NavLink> := [
    Link("/analytics", "Overview"),
    Link("/analytics/sessions", "Sessions"),
    Link("/analytics/ads", "Ads Review"),
    Link("/analytics/attribution", "Attribution"),
    Link("/analytics/attribution/customerlist", "Customer List"),
    Link("/analytics/recommendations", "Recommendations"),
    NavLink("/analytics/sitemap", "Sitemap", Some("SITE INTELLIGENCE")),
    Link("/analytics/behavior", "Behavior overview"),
    Link("/analytics/settings", "Settings")
  ]

  /** The sidebar's links (Sidebar.tsx lines 9-15). */
  const SidebarLinks: seq<NavLink> := [
    Link("/analytics", "Overview"),
    Link("/analytics/sessions", "Sessions"),
    Link("/analytics/ads", "Ads Review"),
    Link("/analytics/recommendations", "Recommendations"),
    Link("/analytics/settings", "Settings")
  ]

  /** In the layout the only header is "SITE INTELLIGENCE", above Sitemap. */
  lemma LayoutHeaders(pathname: string, i: int)
    requires 0 <= i < |LayoutLinks|
    ensures NavItems(pathname, LayoutLinks)[i].showSection <==> i == 6
  {
  }

  /** Overview stays highlighted on every analytics page, so on the ads page
      two sidebar links are active at once, and in the layout the attribution
      link stays active on the customer list. */
  lemma OverviewAlwaysActive(rest: string)
    ensures IsActive("/analytics/" + rest, "/analytics")
    ensures var items := NavItems("/analytics/ads", SidebarLinks);
            items[0].active && items[2].active && !items[1].active
    ensures var items := NavItems("/analytics/attribution/customerlist", LayoutLinks);
            items[3].active && items[4].active
  {
    ActiveBelow("/analytics", rest);
    assert "/analytics/" + rest == "/analytics" + "/" + rest;
    ActiveBelow("/analytics", "ads");
    assert "/analytics/ads" == "/analytics" + "/" + "ads";
    ActiveBelow("/analytics/attribution", "customerlist");
    assert "/analytics/attribution/customerlist" == "/analytics/attribution" + "/" + "customerlist";
    IsActiveMeaning("/analytics/ads", "/analytics/sessions");
  }
}
