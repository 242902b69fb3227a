/** The top navigation bar: link highlighting and the mobile menu. */
module Navigation {
  /** One entry of `navItems`; only the first one is `exact`. */
  datatype NavItem = NavItem(href: string, labelKey: string, exact: bool)

  const NavItems: seq<NavItem> := [
    NavItem("/", "appName", true),
    NavItem("/dashboard", "dashboard", false),
    NavItem("/crops", "crops", false),
    NavItem("/chatbot", "chatbot", false),
    NavItem("/soil-analysis", "soilAnalysis", false),
    NavItem("/pest-disease", "pestDisease", false),
    NavItem("/advisories", "advisories", false)
  ]

  /** `isActive`: equality when `exact`, otherwise `location.startsWith(href)`. */
  function IsActive(location: string, href: string, exact: bool): (active: bool)
    ensures exact ==> (active <==> location == href)
    ensures !exact ==> (active <==> |href| <= |location| && location[..|href|] == href)
  {
    if exact then location == href else href <= location
  }

  /** A link active under the exact rule is active under the prefix rule. */
  lemma ExactImpliesPrefix(location: string, href: string)
    ensures IsActive(location, href, true) ==> IsActive(location, href, false)
  {
  }

  /** The prefix rule compares characters, not path segments. */
  lemma PrefixIsNotSegment()
    ensures IsActive("/cropsX", "/crops", false) && !IsActive("/cropsX", "/crops", true)
  {
    assert "/crops" == "/cropsX"[..6];
  }

  /** The links both menus render: `navItems.slice(1)`, the home entry dropped. */
  function RenderedLinks(): (links: seq<NavItem>)
    ensures |links| == 6
    ensures forall k :: 0 <= k < |links| ==> links[k] == NavItems[k + 1] && links[k].href != "/"
  {
    NavItems[1..]
  }

  /** A rendered button is highlighted by the prefix rule; `exact` is never passed. */
  predicate LinkActive(location: string, item: NavItem)
  {
    IsActive(location, item.href, false)
  }

  /** `item.href.slice(1)`: the part of a link's test id after its `nav-` or `mobile-nav-` prefix. */
  function TestId(href: string): (id: string)
    ensures |href| > 0 ==> |id| == |href| - 1
  {
    if |href| == 0 then "" else href[1..]
  }

  /** The test id drops exactly the leading slash, so the href can be rebuilt from it. */
  lemma TestIdRoundTrip(href: string)
    requires |href| > 0 && href[0] == '/'
    ensures "/" + TestId(href) == href
  {
  }

  /** No rendered href is a prefix of another. */
  lemma LinksPrefixFree()
    ensures forall i, j :: 0 <= i < |RenderedLinks()| && 0 <= j < |RenderedLinks()| && i != j ==>
      !(RenderedLinks()[i].href <= RenderedLinks()[j].href)
  {
    var links := RenderedLinks();
    forall i, j | 0 <= i < |links| && 0 <= j < |links| && i != j
      ensures !(links[i].href <= links[j].href)
    {
      var a, b := links[i].href, links[j].href;
      assert a[1] != b[1] || a[2] != b[2];
    }
  }

  /** Two prefixes of one string are comparable. */
  lemma PrefixesComparable(a: string, b: string, s: string)
    requires a <= s && b <= s
    ensures a <= b || b <= a
  {
    if |a| <= |b| {
      assert a == s[..|a|] == b[..|a|];
    } else {
      assert b == s[..|b|] == a[..|b|];
    }
  }

  /** Whatever the location, at most one rendered link is highlighted. */
  lemma AtMostOneActive(location: string)
    ensures forall i, j ::
      (0 <= i < |RenderedLinks()| && 0 <= j < |RenderedLinks()| &&
       LinkActive(location, RenderedLinks()[i]) && LinkActive(location, RenderedLinks()[j])) ==> i == j
  {
    var links := RenderedLinks();
    LinksPrefixFree();
    forall i, j | 0 <= i < |links| && 0 <= j < |links| && LinkActive(location, links[i]) && LinkActive(location, links[j])
      ensures i == j
    {
      PrefixesComparable(links[i].href, links[j].href, location);
    }
  }

  /** On the home page no rendered link is highlighted. */
  lemma HomeActivatesNothing()
    ensures forall k :: 0 <= k < |RenderedLinks()| ==> !LinkActive("/", RenderedLinks()[k])
  {
    var links := RenderedLinks();
    forall k | 0 <= k < |links| ensures !LinkActive("/", links[k]) {
      assert |links[k].href| > 1;
    }
  }

  /** The bar's state: the router's location and whether the mobile menu is open. */
  class NavigationBar {
    var location: string
    var mobileMenuOpen: bool

    constructor (location: string)
      ensures this.location == location && !mobileMenuOpen
    {
      this.location := location;
      mobileMenuOpen := false;
    }

    /** The menu button flips the mobile menu. */
    method ClickMenuButton()
      modifies this
      ensures mobileMenuOpen == !old(mobileMenuOpen) && location == old(location)
    {
      mobileMenuOpen := !mobileMenuOpen;
    }

    /**
     * Following a rendered link: the location becomes its href, and a mobile
     * link (only shown while the menu is open) also closes the menu.
     */
    method FollowLink(item: NavItem, mobile: bool)
      requires item in RenderedLinks()
      requires mobile ==> mobileMenuOpen
      modifies this
      ensures location == item.href
      ensures mobileMenuOpen == (!mobile && old(mobileMenuOpen))
    {
      location := item.href;
      if mobile {
        mobileMenuOpen := false;
      }
    }
  }

  /**
   * From a closed menu: two flips leave it closed; opening it and choosing a
   * link closes it and highlights that link alone.
   */
  method MenuSession(start: string, choice: nat) returns (afterTwoFlips: bool, afterChoice: bool, active: seq<bool>)
    requires choice < |RenderedLinks()|
    ensures !afterTwoFlips && !afterChoice
    ensures |active| == |RenderedLinks()|
    ensures forall k :: 0 <= k < |active| ==> active[k] == (k == choice)
  {
    var nav := new NavigationBar(start);
    nav.ClickMenuButton();
    nav.ClickMenuButton();
    afterTwoFlips := nav.mobileMenuOpen;
    nav.ClickMenuButton();
    var links := RenderedLinks();
    nav.FollowLink(links[choice], true);
    afterChoice := nav.mobileMenuOpen;
    var location := nav.location;
    active := seq(|links|, k requires 0 <= k < |links| => LinkActive(location, links[k]));
    AtMostOneActive(location);
    assert LinkActive(location, links[choice]);
  }
}
