/**
 * Which bottom-navigation item is highlighted for the current path
 * (lineapp/src/components/BottomNav.tsx).
 */
module BottomNav {

  /** One entry of `navItems`; the icon is left out, the label is `name`. */
  datatype NavItem = NavItem(id: string, name: string, href: string)

  const HomeItem := NavItem("home", "Home", "/dashboard")
  const BeachesItem := NavItem("beaches", "Beaches", "/beaches")
  const FeedItem := NavItem("feed", "Feed", "/feed")
  const SessionsItem := NavItem("sessions", "Sessions", "/sessions")
  const MoreItem := NavItem("more", "More", "/more")

  /** `navItems`, in rendering order. */
  const NavItems: seq<NavItem> := [HomeItem, BeachesItem, FeedItem, SessionsItem, MoreItem]

  /** `pathname === item.href || (item.href !== '/dashboard' && pathname.startsWith(item.href))`. */
  predicate IsActive(pathname: string, item: NavItem)
  {
    pathname == item.href || (item.href != "/dashboard" && item.href <= pathname)
  }

  /** `item.id === 'home' && pathname === '/dashboard'`. */
  predicate IsHome(pathname: string, item: NavItem)
  {
    item.id == "home" && pathname == "/dashboard"
  }

  /** `isHome || isActive`: whether the item is drawn highlighted. */
  predicate Active(pathname: string, item: NavItem)
  {
    IsHome(pathname, item) || IsActive(pathname, item)
  }

  /** Items render as home, beaches, feed, sessions, more. */
  lemma {:induction false} ItemOrder()
    ensures |NavItems| == 5
    ensures NavItems[0].id == "home" && NavItems[1].id == "beaches" && NavItems[2].id == "feed"
    ensures NavItems[3].id == "sessions" && NavItems[4].id == "more"
  {
  }

  /** `isHome` only ever holds where `isActive` already does, so `active` is `isActive`. */
  lemma {:induction false} HomeFlagRedundant(pathname: string, item: NavItem)
    requires item in NavItems
    ensures IsHome(pathname, item) ==> IsActive(pathname, item)
    ensures Active(pathname, item) <==> IsActive(pathname, item)
  {
  }

  /** Home is highlighted for exactly "/dashboard", not for paths below it. */
  lemma {:induction false} HomeOnlyOnDashboard(pathname: string)
    ensures Active(pathname, HomeItem) <==> pathname == "/dashboard"
  {
  }

  /** The prefix test ignores path segments: "/feedback" highlights Feed, "/dashboard/x" highlights nothing. */
  lemma {:induction false} PrefixWithoutSegmentBoundary()
    ensures Active("/feedback", FeedItem)
    ensures Active("/feed/42", FeedItem)
    ensures !Active("/dashboard/settings", HomeItem)
    ensures !Active("/", HomeItem) && !Active("/", FeedItem)
  {
    assert FeedItem.href == "/feedback"[..5];
    assert FeedItem.href == "/feed/42"[..5];
  }

  /** Any highlighted item's href starts the path. */
  lemma {:induction false} ActiveMeansPrefix(pathname: string, item: NavItem)
    requires item in NavItems && Active(pathname, item)
    ensures item.href <= pathname
  {
  }

  /** The hrefs differ in their second character, so none is a prefix of another. */
  lemma {:induction false} HrefsPrefixFree()
    ensures forall i, j :: 0 <= i < |NavItems| && 0 <= j < |NavItems| && i != j ==> !(NavItems[i].href <= NavItems[j].href)
  {
    forall i, j | 0 <= i < |NavItems| && 0 <= j < |NavItems| && i != j
      ensures !(NavItems[i].href <= NavItems[j].href)
    {
      var a, b := NavItems[i].href, NavItems[j].href;
      assert |a| >= 2 && |b| >= 2 && a[1] != b[1];
    }
  }

  /** Two prefixes of the same string are prefixes of one another. */
  lemma {:induction false} PrefixesComparable(a: string, b: string, s: string)
    requires a <= s && b <= s
    ensures a <= b || b <= a
  {
    if |a| <= |b| {
      assert a == s[..|a|] == b[..|a|];
    } else {
      assert b == s[..|b|] == a[..|b|];
    }
  }

  /** For any path, at most one item is highlighted. */
  lemma {:induction false} AtMostOneActive(pathname: string)
    ensures forall i, j ::
      0 <= i < |NavItems| && 0 <= j < |NavItems| && Active(pathname, NavItems[i]) && Active(pathname, NavItems[j])
      ==> i == j
  {
    HrefsPrefixFree();
    forall i, j | 0 <= i < |NavItems| && 0 <= j < |NavItems|
      && Active(pathname, NavItems[i]) && Active(pathname, NavItems[j])
      ensures i == j
    {
      ActiveMeansPrefix(pathname, NavItems[i]);
      ActiveMeansPrefix(pathname, NavItems[j]);
      PrefixesComparable(NavItems[i].href, NavItems[j].href, pathname);
    }
  }
}
