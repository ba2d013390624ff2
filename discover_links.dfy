/** The link-discovery route (pages/api/discover-links.js): the request checks,
    the reaction to the upstream webscraper's reply, and the three passes that
    grow one insertion-ordered set of same-site links, cut to 15.

    The parsed page is abstract: the anchors matched by the navigation-region
    selectors and the anchors matched by `a[href]`, each with its `href`
    attribute and its text. */
module DiscoverLinks {
  import opened Collections
  import opened Text
  import opened Web

  /** Words that mark a navigation link. */
  const NavKeywords: seq<string> := [
    "about", "contact", "team", "staff", "people", "services", "products",
    "about-us", "contact-us", "our-team", "our-staff", "our-people",
    "service", "product", "pricing", "plans", "support", "help",
    "company", "organization", "who-we-are", "what-we-do", "meet",
    "portfolio", "work", "projects", "case-studies", "testimonials"]

  /** Words that mark a team page in the whole-page pass. */
  const TeamKeywords: seq<string> := ["team", "staff", "people", "meet", "our-team", "about-team", "members"]

  /** Words that mark a contact or about page in the whole-page pass. */
  const ContactAboutKeywords: seq<string> := ["contact", "about", "about-us", "company"]

  /** The conventional paths tried when too few links were found. */
  const CommonPaths: seq<string> := [
    "/about", "/contact", "/team", "/services", "/products",
    "/about-us", "/contact-us", "/our-team", "/staff", "/people",
    "/about.html", "/contact.html", "/team.html", "/services.html",
    "/meet", "/meet-team", "/about/team", "/company/team"]

  /** The pass over the whole page stops adding at this size. */
  const PageCap := 20

  /** At most this many links are returned. */
  const MaxLinks := 15

  /** Below this many links the conventional paths are added. */
  const FallbackBelow := 3

  /** An anchor: its `href` attribute (`""` when absent) and its text. */
  datatype Anchor = Anchor(href: string, text: string)

  /** The anchors of the navigation regions (`nav a, header a, .nav a, …`) and
      the anchors of the whole page (`a[href]`), in document order. */
  datatype Page = Page(navAnchors: seq<Anchor>, anchors: seq<Anchor>)

  /** The link text as compared: lower-cased and trimmed. */
  function LinkText(a: Anchor): (t: string)
    ensures t == Trim(Lower(a.text))
    ensures IsLowerCase(t) && Trimmed(t)
  {
    LowerKeepsTrimmed(Trim(a.text));
    TrimOfLowerCase(Lower(a.text));
    Trim(Lower(a.text))
  }

  /** Phase 1's keyword test: a navigation word in the lower-cased href or in
      the link text. */
  predicate IsNavLink(a: Anchor) {
    ContainsAny(Lower(a.href), NavKeywords) || ContainsAny(LinkText(a), NavKeywords)
  }

  /** Phase 2's keyword tests, on the resolved path, the link text and the href. */
  predicate IsImportantPage(a: Anchor, u: Url) {
    ContainsAny(Lower(u.pathname), NavKeywords) || ContainsAny(LinkText(a), NavKeywords) || ContainsAny(Lower(a.href), NavKeywords)
  }

  predicate IsTeamPage(a: Anchor, u: Url) {
    ContainsAny(Lower(u.pathname), TeamKeywords) || ContainsAny(LinkText(a), TeamKeywords) || ContainsAny(Lower(a.href), TeamKeywords)
  }

  /** Contact and about words count in the path and the text, not the href. */
  predicate IsContactAboutPage(a: Anchor, u: Url) {
    ContainsAny(Lower(u.pathname), ContactAboutKeywords) || ContainsAny(LinkText(a), ContactAboutKeywords)
  }

  /** Every contact or about word is a navigation word. */
  lemma ContactAboutWordsAreNav(s: string)
    ensures ContainsAny(s, ContactAboutKeywords) ==> ContainsAny(s, NavKeywords)
  {
    if ContainsAny(s, ContactAboutKeywords) {
      var i := ContainsAnyIndex(s, ContactAboutKeywords);
      var j := [1, 0, 7, 18][i];
      assert NavKeywords[j] == ContactAboutKeywords[i];
      ContainsAnyAt(s, NavKeywords, j);
    }
  }

  /** Every team word but `members` is, or starts with, a navigation word. */
  lemma TeamWordsAreNav(s: string)
    ensures ContainsAny(s, TeamKeywords) ==> ContainsAny(s, NavKeywords) || Contains(s, "members")
    ensures Contains(s, "members") ==> ContainsAny(s, TeamKeywords)
  {
    if ContainsAny(s, TeamKeywords) {
      var i := ContainsAnyIndex(s, TeamKeywords);
      if i == 5 {
        assert NavKeywords[0] <= TeamKeywords[5];
        ContainsPrefix(s, TeamKeywords[5], NavKeywords[0]);
        ContainsAnyAt(s, NavKeywords, 0);
      } else if i < 5 {
        var j := [2, 3, 4, 22, 9][i];
        assert NavKeywords[j] == TeamKeywords[i];
        ContainsAnyAt(s, NavKeywords, j);
      }
    }
    if Contains(s, "members") {
      ContainsAnyAt(s, TeamKeywords, 6);
    }
  }

  /** Phase 2's three tests together: a navigation word in the path, the text
      or the href, or `members` in one of them. */
  lemma PageTestMeans(a: Anchor, u: Url)
    ensures IsImportantPage(a, u) || IsTeamPage(a, u) || IsContactAboutPage(a, u) <==>
      IsImportantPage(a, u) || Contains(Lower(u.pathname), "members") || Contains(LinkText(a), "members") || Contains(Lower(a.href), "members")
  {
    TeamWordsAreNav(Lower(u.pathname));
    TeamWordsAreNav(LinkText(a));
    TeamWordsAreNav(Lower(a.href));
    ContactAboutWordsAreNav(Lower(u.pathname));
    ContactAboutWordsAreNav(LinkText(a));
  }

  /** The link a navigation-region anchor contributes, if any. */
  function NavEntry(a: Anchor, base: Url, resolve: Resolver): (r: Option<string>)
    ensures r.Some? <==>
      && a.href != []
      && resolve(a.href, base.href).Some?
      && resolve(a.href, base.href).value.hostname == base.hostname
      && IsNavLink(a)
    ensures r.Some? ==> r.value == resolve(a.href, base.href).value.href
  {
    if a.href == [] then None
    else
      match resolve(a.href, base.href)
      case None => None
      case Some(u) => if u.hostname == base.hostname && IsNavLink(a) then Some(u.href) else None
  }

  /** `NavEntry` for each anchor, in order. */
  function NavEntries(anchors: seq<Anchor>, base: Url, resolve: Resolver): (r: seq<Option<string>>)
    ensures |r| == |anchors|
    ensures forall i :: 0 <= i < |anchors| ==> r[i] == NavEntry(anchors[i], base, resolve)
    decreases |anchors|
  {
    if anchors == [] then []
    else NavEntries(anchors[..|anchors| - 1], base, resolve) + [NavEntry(anchors[|anchors| - 1], base, resolve)]
  }

  lemma NavEntriesSnoc(anchors: seq<Anchor>, i: nat, base: Url, resolve: Resolver)
    requires i < |anchors|
    ensures NavEntries(anchors[..i + 1], base, resolve) == NavEntries(anchors[..i], base, resolve) + [NavEntry(anchors[i], base, resolve)]
  {
    assert anchors[..i + 1][..i] == anchors[..i];
  }

  /** The set after phase 1: the accepted navigation links, first occurrence first. */
  function AfterNav(page: Page, base: Url, resolve: Resolver): (r: seq<string>)
    ensures NoDup(r)
    ensures forall x :: x in r <==> exists i :: 0 <= i < |page.navAnchors| && NavEntry(page.navAnchors[i], base, resolve) == Some(x)
  {
    var entries := NavEntries(page.navAnchors, base, resolve);
    assert forall x :: Some(x) in entries <==> exists i :: 0 <= i < |entries| && entries[i] == Some(x);
    Dedup(Present(entries))
  }

  /** The link a page anchor contributes in phase 2 while the set is below
      the cap, if any. */
  function PageEntry(a: Anchor, base: Url, resolve: Resolver): (r: Option<string>)
    ensures r.Some? <==>
      && a.href != []
      && resolve(a.href, base.href).Some?
      && var u := resolve(a.href, base.href).value;
      && u.hostname == base.hostname
      && (IsImportantPage(a, u) || IsTeamPage(a, u) || IsContactAboutPage(a, u))
    ensures r.Some? ==> r.value == resolve(a.href, base.href).value.href
  {
    if a.href == [] then None
    else
      match resolve(a.href, base.href)
      case None => None
      case Some(u) =>
        if u.hostname == base.hostname && (IsImportantPage(a, u) || IsTeamPage(a, u) || IsContactAboutPage(a, u))
        then Some(u.href) else None
  }

  /** Phase 2 from the set `acc`: each page anchor, in order, adds its entry
      while the set has fewer than 20 links. */
  function PagePass(acc: seq<string>, anchors: seq<Anchor>, base: Url, resolve: Resolver): (r: seq<string>)
    ensures acc <= r
    ensures |acc| >= PageCap ==> r == acc
    ensures |acc| < PageCap ==> |r| <= PageCap
    ensures NoDup(acc) ==> NoDup(r)
    ensures forall x :: x in r ==> x in acc || exists i :: 0 <= i < |anchors| && PageEntry(anchors[i], base, resolve) == Some(x)
    ensures |r| < PageCap ==>
      forall i :: 0 <= i < |anchors| && PageEntry(anchors[i], base, resolve).Some? ==> PageEntry(anchors[i], base, resolve).value in r
    decreases |anchors|
  {
    if anchors == [] then acc
    else
      var next :=
        if |acc| < PageCap && PageEntry(anchors[0], base, resolve).Some?
        then AddUnique(acc, PageEntry(anchors[0], base, resolve).value)
        else acc;
      var r := PagePass(next, anchors[1..], base, resolve);
      assert forall i :: 0 <= i < |anchors| - 1 ==> anchors[1..][i] == anchors[i + 1];
      assert |r| < PageCap && PageEntry(anchors[0], base, resolve).Some? ==> PageEntry(anchors[0], base, resolve).value in next;
      r
  }

  /** The 18 conventional addresses on the base site, `protocol//hostname` + path. */
  function FallbackUrls(base: Url): (r: seq<string>)
    ensures |r| == |CommonPaths|
    ensures forall i :: 0 <= i < |r| ==> r[i] == base.protocol + "//" + base.hostname + CommonPaths[i]
  {
    seq(|CommonPaths|, i requires 0 <= i < |CommonPaths| => base.protocol + "//" + base.hostname + CommonPaths[i])
  }

  /** The set after all three phases. */
  function Discovered(page: Page, base: Url, resolve: Resolver): (r: seq<string>)
    ensures NoDup(r)
  {
    var found := PagePass(AfterNav(page, base, resolve), page.anchors, base, resolve);
    if |found| < FallbackBelow then AddAll(found, FallbackUrls(base)) else found
  }

  /** The returned links: the first 15 of the set. */
  function LinksOf(page: Page, base: Url, resolve: Resolver): (r: seq<string>)
    ensures |r| == if |Discovered(page, base, resolve)| < MaxLinks then |Discovered(page, base, resolve)| else MaxLinks
    ensures NoDup(r)
    ensures r <= Discovered(page, base, resolve)
  {
    var all := Discovered(page, base, resolve);
    var r := Take(all, MaxLinks);
    assert forall i, j :: 0 <= i < j < |r| ==> r[i] == all[i] && r[j] == all[j];
    r
  }

  /** The position of a conventional path in the list, recognised by its length
      and next-to-last character; -1 for anything not told apart that way. */
  function PathIndex(path: string): int
  {
    var key := if |path| < 2 then 0 else |path| * 128 + path[|path| - 2] as int;
    match key
    case 885 => 0
    case 1123 => 1
    case 737 => 2
    case 1253 => 3
    case 1268 => 4
    case 1269 => 5
    case 1525 => 6
    case 1249 => 7
    case 870 => 8
    case 1004 => 9
    case 1517 => 10
    case 1773 => 11
    case 1389 => 12
    case 1901 => 13
    case 741 => 14
    case 1377 => 15
    case 1505 => 16
    case 1761 => 17
    case _ => -1
  }

  /** Every conventional path is listed once: each is found back at its own place. */
  lemma CommonPathsDistinct()
    ensures NoDup(CommonPaths)
  {
    assert forall i :: 0 <= i < |CommonPaths| ==> PathIndex(CommonPaths[i]) == i;
  }

  lemma PrefixCancels(p: string, a: string, b: string)
    requires p + a == p + b
    ensures a == b
  {
    assert a == (p + a)[|p|..];
  }

  /** The conventional addresses on one site are pairwise different. */
  lemma FallbackUrlsDistinct(base: Url)
    ensures NoDup(FallbackUrls(base))
  {
    var urls := FallbackUrls(base);
    var prefix := base.protocol + "//" + base.hostname;
    CommonPathsDistinct();
    forall i, j | 0 <= i < j < |urls|
      ensures urls[i] != urls[j]
    {
      if urls[i] == urls[j] {
        PrefixCancels(prefix, CommonPaths[i], CommonPaths[j]);
      }
    }
  }

  /** When fewer than 3 links were found, the fallback fires and exactly 15
      links come back, because it brings 18 different addresses. */
  lemma FallbackGivesFifteen(page: Page, base: Url, resolve: Resolver)
    requires |PagePass(AfterNav(page, base, resolve), page.anchors, base, resolve)| < FallbackBelow
    ensures forall u :: u in FallbackUrls(base) ==> u in Discovered(page, base, resolve)
    ensures |LinksOf(page, base, resolve)| == MaxLinks
  {
    var all := Discovered(page, base, resolve);
    FallbackUrlsDistinct(base);
    NoDupCovers(all, FallbackUrls(base));
  }

  /** With 3 or more links found no address is invented: the result is the
      start of what the two keyword passes found. */
  lemma NoFallbackWhenEnough(page: Page, base: Url, resolve: Resolver)
    requires |PagePass(AfterNav(page, base, resolve), page.anchors, base, resolve)| >= FallbackBelow
    ensures LinksOf(page, base, resolve) <= PagePass(AfterNav(page, base, resolve), page.anchors, base, resolve)
    ensures forall x :: x in LinksOf(page, base, resolve) ==>
      (exists i :: 0 <= i < |page.navAnchors| && NavEntry(page.navAnchors[i], base, resolve) == Some(x))
      || (exists i :: 0 <= i < |page.anchors| && PageEntry(page.anchors[i], base, resolve) == Some(x))
  {
  }

  /** The navigation-region links come first, in their order; phase 2 can
      only add after them. */
  lemma NavLinksFirst(page: Page, base: Url, resolve: Resolver)
    ensures Take(AfterNav(page, base, resolve), MaxLinks) <= LinksOf(page, base, resolve)
  {
    var nav := AfterNav(page, base, resolve);
    var all := Discovered(page, base, resolve);
    assert nav <= all;
    if |nav| <= MaxLinks {
      assert Take(nav, MaxLinks) == nav;
    } else {
      assert all[..MaxLinks] == nav[..MaxLinks];
    }
  }

  /** Phase 2 never takes the set past 20 links, nor past its size after phase 1. */
  lemma PagePassBound(page: Page, base: Url, resolve: Resolver)
    ensures var nav := AfterNav(page, base, resolve);
      |PagePass(nav, page.anchors, base, resolve)| <= if |nav| < PageCap then PageCap else |nav|
  {
  }

  /** Phase 1: the navigation-region anchors, into the empty set. */
  method AddNavLinks(nav: seq<Anchor>, base: Url, resolve: Resolver, discovered: OrderedSet<string>)
    requires discovered.Valid() && discovered.items == []
    modifies discovered
    ensures discovered.Valid()
    ensures discovered.items == Dedup(Present(NavEntries(nav, base, resolve)))
  {
    for i := 0 to |nav|
      invariant discovered.Valid()
      invariant discovered.items == AddAll([], Present(NavEntries(nav[..i], base, resolve)))
    {
      var a := nav[i];
      NavEntriesSnoc(nav, i, base, resolve);
      AddPresentSnoc([], NavEntries(nav[..i], base, resolve), NavEntry(a, base, resolve));
      if a.href != [] {
        var resolved := resolve(a.href, base.href);
        if resolved.Some? {
          var u := resolved.value;
          if u.hostname == base.hostname {
            var isNavLink := ContainsAny(Lower(a.href), NavKeywords) || ContainsAny(LinkText(a), NavKeywords);
            if isNavLink {
              discovered.Add(u.href);
            }
          }
        }
      }
    }
    assert nav[..|nav|] == nav;
  }

  /** Phase 2's three keyword tests on one same-site anchor. */
  method ClassifyPageLink(a: Anchor, u: Url) returns (wanted: bool)
    ensures wanted == (IsImportantPage(a, u) || IsTeamPage(a, u) || IsContactAboutPage(a, u))
  {
    var path := Lower(u.pathname);
    var linkText := LinkText(a);
    var isImportantPage := ContainsAny(path, NavKeywords) || ContainsAny(linkText, NavKeywords) || ContainsAny(Lower(a.href), NavKeywords);
    var isTeamPage := ContainsAny(path, TeamKeywords) || ContainsAny(linkText, TeamKeywords) || ContainsAny(Lower(a.href), TeamKeywords);
    var isContactAboutPage := ContainsAny(path, ContactAboutKeywords) || ContainsAny(linkText, ContactAboutKeywords);
    wanted := isImportantPage || isTeamPage || isContactAboutPage;
  }

  /** Phase 2: every anchor of the page, while the set is below the cap. */
  method AddPageLinks(anchors: seq<Anchor>, base: Url, resolve: Resolver, discovered: OrderedSet<string>)
    requires discovered.Valid()
    modifies discovered
    ensures discovered.Valid()
    ensures discovered.items == PagePass(old(discovered.items), anchors, base, resolve)
  {
    assert anchors[0..] == anchors;
    for i := 0 to |anchors|
      invariant discovered.Valid()
      invariant PagePass(discovered.items, anchors[i..], base, resolve) == PagePass(old(discovered.items), anchors, base, resolve)
    {
      var a := anchors[i];
      assert anchors[i..][0] == a && anchors[i..][1..] == anchors[i + 1..];
      if a.href != [] && discovered.Size() < PageCap {
        var resolved := resolve(a.href, base.href);
        if resolved.Some? {
          var u := resolved.value;
          if u.hostname == base.hostname {
            var wanted := ClassifyPageLink(a, u);
            if wanted {
              discovered.Add(u.href);
            }
          }
        }
      }
    }
  }

  /** Phase 3: the conventional paths, each added as `protocol//hostname` + path. */
  method AddCommonPaths(base: Url, discovered: OrderedSet<string>)
    requires discovered.Valid()
    modifies discovered
    ensures discovered.Valid()
    ensures discovered.items == AddAll(old(discovered.items), FallbackUrls(base))
  {
    var paths := CommonPaths;
    var urls := FallbackUrls(base);
    ghost var start := discovered.items;
    for k := 0 to |paths|
      invariant discovered.Valid()
      invariant discovered.items == AddAll(start, urls[..k])
    {
      var url := base.protocol + "//" + base.hostname + paths[k];
      assert url == urls[k];
      PrefixSnoc(urls, k);
      AddAllSnoc(start, urls[..k], url);
      discovered.Add(url);
    }
    assert urls[..|paths|] == urls;
  }

  /** The three passes and the cut, as the route runs them on one set. */
  method Discover(page: Page, base: Url, resolve: Resolver) returns (links: seq<string>)
    ensures links == LinksOf(page, base, resolve)
  {
    var discovered := new OrderedSet<string>();
    AddNavLinks(page.navAnchors, base, resolve, discovered);
    AddPageLinks(page.anchors, base, resolve, discovered);
    if discovered.Size() < FallbackBelow {
      AddCommonPaths(base, discovered);
    }
    links := Take(discovered.items, MaxLinks);
  }

  /** A response: its status and the body's `message`, `error` and `links`,
      each `None` where the body has no such field. */
  datatype Reply = Reply(status: int, message: Option<string>, error: Option<string>, links: Option<seq<string>>)

  const MissingKey := "API key not configured on server."
  const DiscoveryFailed := "Link discovery failed"
  const DiscoveryError := "Link discovery error"

  /** The whole route. `base` is `new URL(url)` of the requested address,
      which runs only once the page is in hand; its error, like an upstream
      exception, answers 500. */
  method HandleDiscover(req: Request, apiKey: string, upstream: Upstream<Page>, base: UrlParse, resolve: Resolver) returns (r: Reply)
    ensures Gate(req, apiKey, MissingKey).Some? ==>
      r == Reply(Gate(req, apiKey, MissingKey).value.status, Some(Gate(req, apiKey, MissingKey).value.message), None, None)
    ensures Gate(req, apiKey, MissingKey).None? && upstream.Failed? ==>
      r == Reply(upstream.status, Some(if upstream.error == [] then DiscoveryFailed else upstream.error), None, Some([]))
    ensures Gate(req, apiKey, MissingKey).None? && upstream.Threw? ==>
      r == Reply(500, Some(DiscoveryError), Some(upstream.message), Some([]))
    ensures Gate(req, apiKey, MissingKey).None? && upstream.Delivered? && upstream.content.None? ==>
      r == Reply(200, None, None, Some([]))
    ensures Gate(req, apiKey, MissingKey).None? && upstream.Delivered? && upstream.content.Some? && base.Invalid? ==>
      r == Reply(500, Some(DiscoveryError), Some(base.message), Some([]))
    ensures Gate(req, apiKey, MissingKey).None? && upstream.Delivered? && upstream.content.Some? && base.Parsed? ==>
      r == Reply(200, None, None, Some(LinksOf(upstream.content.value, base.url, resolve)))
  {
    var gate := Gate(req, apiKey, MissingKey);
    if gate.Some? {
      return Reply(gate.value.status, Some(gate.value.message), None, None);
    }
    match upstream
    case Threw(message) =>
      r := Reply(500, Some(DiscoveryError), Some(message), Some([]));
    case Failed(status, error) =>
      r := Reply(status, Some(if error == [] then DiscoveryFailed else error), None, Some([]));
    case Delivered(content) =>
      if content.None? {
        r := Reply(200, None, None, Some([]));
      } else if base.Invalid? {
        r := Reply(500, Some(DiscoveryError), Some(base.message), Some([]));
      } else {
        var links := Discover(content.value, base.url, resolve);
        r := Reply(200, None, None, Some(links));
      }
  }
}
