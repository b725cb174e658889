/**
 * The fragment router of public/js/router.js: the route table, the rule that
 * decides which anchor clicks are intercepted, the three path normalisations,
 * the page-load transition with its full-navigation fallback, active-link
 * marking, and the popstate handler.
 *
 * The live page is a `Router` object: the inner markup of its `page-content`
 * region (absent when the page has no such element), the document title, the
 * history entries it has pushed, the window location and the `.nav-link`
 * anchors, each abstracted to its `href` and whether its text is bold.
 * The outcome of fetching and parsing a page is an input (`FetchOutcome`).
 */
module Router {
  import opened Wrappers

  /** The fragment served for the site root. */
  const IndexPage := "index.html"

  /** The fixed route table: URL path to fragment resource name. */
  const Routes: map<string, string> := map[
    "/" := "index.html",
    "/index.html" := "index.html",
    "/about.html" := "about.html",
    "/experience.html" := "experience.html",
    "/log.html" := "log.html",
    "/contact.html" := "contact.html"
  ]

  /** Every `href` the router intercepts (unless the anchor opens a new tab):
      the six route keys and the five resource names written without `/`. */
  const InternalHrefs: set<string> := {
    "/", "/index.html", "/about.html", "/experience.html", "/log.html", "/contact.html",
    "index.html", "about.html", "experience.html", "log.html", "contact.html"
  }

  /** An anchor element as the click handler sees it: its `href` and `target`
      attributes, each possibly absent. */
  datatype Anchor = Anchor(href: Option<string>, target: Option<string>)

  predicate StartsWith(s: string, prefix: string) {
    |prefix| <= |s| && s[..|prefix|] == prefix
  }

  // ---------------------------------------------------------------------------
  // Link classification
  // ---------------------------------------------------------------------------

  /** `isInternalLink`: a missing or empty `href`, an absolute `http://` or
      `https://` URL, a `mailto:` link, a pure `#` anchor and a `_blank` target
      are left to the browser; anything else is intercepted exactly when
      `'/' + href` or `href` itself is a route key. */
  predicate IsInternalLink(link: Anchor): (r: bool)
    ensures r ==> link.href.Some? && link.href.value != "" && link.target != Some("_blank")
    ensures r ==> link.href.value in Routes || "/" + link.href.value in Routes
  {
    match link.href
    case None => false
    case Some(href) =>
      if href == ""
         || StartsWith(href, "http://")
         || StartsWith(href, "https://")
         || StartsWith(href, "mailto:")
         || StartsWith(href, "#")
         || link.target == Some("_blank")
      then false
      else "/" + href in Routes || href in Routes
  }

  /** The route-key test reduces to membership of `InternalHrefs`: a route key
      and a key with its leading `/` dropped are the only hrefs accepted. */
  lemma RouteKeyTest(href: string)
    requires href != ""
    ensures ("/" + href in Routes || href in Routes) <==> href in InternalHrefs
  {
    var k := "/" + href;
    assert k[1..] == href;
    if k in Routes {
      assert k == "/" || k == "/index.html" || k == "/about.html" || k == "/experience.html"
        || k == "/log.html" || k == "/contact.html";
      assert k != "/" by { assert |k| > 1; }
      assert "/index.html"[1..] == "index.html";
      assert "/about.html"[1..] == "about.html";
      assert "/experience.html"[1..] == "experience.html";
      assert "/log.html"[1..] == "log.html";
      assert "/contact.html"[1..] == "contact.html";
    }
    if href in InternalHrefs && href !in Routes {
      assert href == "index.html" || href == "about.html" || href == "experience.html"
        || href == "log.html" || href == "contact.html";
      assert "/" + "index.html" == "/index.html";
      assert "/" + "about.html" == "/about.html";
      assert "/" + "experience.html" == "/experience.html";
      assert "/" + "log.html" == "/log.html";
      assert "/" + "contact.html" == "/contact.html";
    }
  }

  /** None of the hrefs the route table accepts carries one of the rejected
      prefixes, so those prefix tests never reject a routable link. */
  lemma InternalHrefsHaveNoRejectedPrefix(href: string)
    requires href in InternalHrefs
    ensures href != ""
    ensures !StartsWith(href, "http://") && !StartsWith(href, "https://")
    ensures !StartsWith(href, "mailto:") && !StartsWith(href, "#")
  {
    assert href[0] == '/' || href[0] in {'i', 'a', 'e', 'l', 'c'};
  }

  /** The exact set of intercepted anchors: an `href` from `InternalHrefs` and
      a target other than `_blank`. In particular an empty or missing `href`,
      an external or `mailto:` URL and a `#` anchor are never intercepted. */
  lemma {:induction false} InternalLinkCharacterised(link: Anchor)
    ensures IsInternalLink(link) <==>
      link.href.Some? && link.href.value in InternalHrefs && link.target != Some("_blank")
  {
    if link.href.Some? && link.href.value != "" {
      RouteKeyTest(link.href.value);
      if link.href.value in InternalHrefs {
        InternalHrefsHaveNoRejectedPrefix(link.href.value);
      }
    }
  }

  /** Every route target, written bare, is itself a route key once prefixed
      with `/`, so a link to any route target is intercepted. */
  lemma RouteTargetIsInternal(v: string)
    requires v in Routes.Values
    ensures "/" + v in Routes
    ensures IsInternalLink(Anchor(Some(v), None))
  {
    var k :| k in Routes && Routes[k] == v;
    assert v in InternalHrefs;
    InternalLinkCharacterised(Anchor(Some(v), None));
    RouteKeyTest(v);
    assert "/" + "index.html" == "/index.html";
    assert "/" + "about.html" == "/about.html";
    assert "/" + "experience.html" == "/experience.html";
    assert "/" + "log.html" == "/log.html";
    assert "/" + "contact.html" == "/contact.html";
  }

  // ---------------------------------------------------------------------------
  // Path normalisation
  // ---------------------------------------------------------------------------

  /** `s.substring(1)`: everything after the first character; the empty string
      stays empty. */
  function DropFirst(s: string): (r: string)
    ensures s == "" ==> r == ""
    ensures s != "" ==> s == [s[0]] + r
  {
    if s == "" then "" else s[1..]
  }

  /** The normalisation of `navigate` as written: one leading `/` is removed if
      present, and a URL without one is returned unchanged. */
  function StripLeadingSlash(url: string): (page: string)
    ensures if StartsWith(url, "/") then url == "/" + page else page == url
  {
    if StartsWith(url, "/") then url[1..] else url
  }

  /** The page name `navigate` should derive from a link's `href`: the root
      path names the index fragment, as it does at start-up; every other URL
      loses its leading `/`. A route key and a bare resource name both resolve
      to their route target. */
  function NavigatePage(url: string): (page: string)
    ensures url in Routes ==> page == Routes[url]
  {
    if url == "/" then IndexPage else StripLeadingSlash(url)
  }

  /** The page name derived from the location path at start-up: `/` is the
      index fragment, anything else loses its first character. */
  function PageOfPath(path: string): (page: string)
    ensures path == "/" ==> page == IndexPage
    ensures StartsWith(path, "/") && path != "/" ==> path == "/" + page
  {
    if path == "/" then IndexPage else DropFirst(path)
  }

  /** The history path pushed for a page: `/` for the index fragment,
      `'/' + page` otherwise. */
  function HistoryPath(page: string): (path: string)
    ensures StartsWith(path, "/")
  {
    if page == IndexPage then "/" else "/" + page
  }

  /** Start-up recovers any non-empty page name from the path the router
      pushes for it. */
  lemma HistoryPathRoundTrip(page: string)
    requires page != ""
    ensures PageOfPath(HistoryPath(page)) == page
  {
  }

  /** The other direction: a location path survives the trip through its page
      name, except that `/index.html` comes back as `/`. */
  lemma PathRoundTrip(path: string)
    requires StartsWith(path, "/")
    ensures HistoryPath(PageOfPath(path)) == if path == "/index.html" then "/" else path
  {
  }

  /** A route key with its leading `/` stripped names the route target for
      every key except the root. */
  lemma StripLeadingSlashOnRouteKeys(k: string)
    requires k in Routes && k != "/"
    ensures StripLeadingSlash(k) == Routes[k]
  {
  }

  /** Under the corrected normalisation every intercepted link navigates to
      the route target of its `href`, looked up as written or with `/`
      prefixed. */
  lemma {:induction false} NavigateResolvesRoute(link: Anchor)
    requires IsInternalLink(link)
    ensures var href := link.href.value;
      NavigatePage(href) == if href in Routes then Routes[href] else Routes["/" + href]
  {
    var href := link.href.value;
    if href !in Routes {
      InternalLinkCharacterised(link);
      assert href == "index.html" || href == "about.html" || href == "experience.html"
        || href == "log.html" || href == "contact.html";
      assert !StartsWith(href, "/") by { assert href[0] != '/'; }
      assert "/" + "index.html" == "/index.html";
      assert "/" + "about.html" == "/about.html";
      assert "/" + "experience.html" == "/experience.html";
      assert "/" + "log.html" == "/log.html";
      assert "/" + "contact.html" == "/contact.html";
    }
  }

  /** The corrected and the written normalisation differ only on `/`. */
  lemma NavigatePageAgrees(url: string)
    requires url != "/"
    ensures NavigatePage(url) == StripLeadingSlash(url)
  {
  }

  /** Under the normalisation as written, every intercepted link other than
      `/` navigates to the route target of its `href`. */
  lemma {:induction false} StripLeadingSlashResolvesRoute(link: Anchor)
    requires IsInternalLink(link) && link.href != Some("/")
    ensures var href := link.href.value;
      StripLeadingSlash(href) == if href in Routes then Routes[href] else Routes["/" + href]
  {
    NavigateResolvesRoute(link);
    NavigatePageAgrees(link.href.value);
  }

  // ---------------------------------------------------------------------------
  // Active-link marking
  // ---------------------------------------------------------------------------

  /** A `.nav-link` anchor: its `href` and whether its text is wrapped in `<b>`. */
  datatype NavLink = NavLink(href: Option<string>, bold: bool)

  /** The page name `updateActiveLink` compares against: `/` is the index
      fragment. */
  function ActivePageName(page: string): (name: string)
    ensures page == "/" ==> name == IndexPage
    ensures page != "/" ==> name == page
    ensures name != "/"
  {
    if page == "/" then IndexPage else page
  }

  /** The match test of `updateActiveLink`, with both of its disjuncts. */
  predicate LinkMatches(href: Option<string>, pageName: string): (r: bool)
    ensures pageName != "/" ==> (r <==> href == Some(pageName))
    ensures pageName == "/" ==> (r <==> href == Some(IndexPage) || href == Some("/"))
  {
    href == Some(pageName) || (href == Some(IndexPage) && pageName == "/")
  }

  /** One link: bold is added when it matches and is missing, and removed when
      it does not match and is present; either way the link ends up bold
      exactly when it matches. */
  function MarkLink(link: NavLink, pageName: string): (r: NavLink)
    ensures r.href == link.href
    ensures r.bold == LinkMatches(link.href, pageName)
  {
    if LinkMatches(link.href, pageName) then
      if !link.bold then link.(bold := true) else link
    else
      if link.bold then link.(bold := false) else link
  }

  /** Every link of the navigation, marked against `pageName`. */
  function MarkAll(links: seq<NavLink>, pageName: string): (r: seq<NavLink>)
    ensures |r| == |links|
    ensures forall k :: 0 <= k < |r| ==>
      r[k].href == links[k].href && r[k].bold == LinkMatches(links[k].href, pageName)
  {
    if links == [] then [] else [MarkLink(links[0], pageName)] + MarkAll(links[1..], pageName)
  }

  /** After marking for `page`, a link is bold exactly when its `href` is the
      normalised page name; the second disjunct of the match test never fires,
      because the normalised name is never `/`. */
  lemma ActiveLinkIsExactMatch(links: seq<NavLink>, page: string, k: int)
    requires 0 <= k < |links|
    ensures MarkAll(links, ActivePageName(page))[k].bold <==> links[k].href == Some(ActivePageName(page))
  {
  }

  /** Marking twice for the same page changes nothing more. */
  lemma MarkAllIdempotent(links: seq<NavLink>, pageName: string)
    ensures MarkAll(MarkAll(links, pageName), pageName) == MarkAll(links, pageName)
  {
  }

  // ---------------------------------------------------------------------------
  // The page-load transition
  // ---------------------------------------------------------------------------

  /** The parsed fetched document: the inner markup of its `page-content`
      element and the text of its `<title>`, each possibly absent. */
  datatype FetchedDocument = FetchedDocument(pageContent: Option<string>, title: Option<string>)

  /** How fetching and parsing the page ended: a response whose status is not
      ok, an exception, or a parsed document. */
  datatype FetchOutcome = NotOk(status: int) | Threw | Parsed(doc: FetchedDocument)

  /** A pushed or replaced history entry: the `{ page }` state and its path. */
  datatype HistoryEntry = HistoryEntry(page: string, path: string)

  /** Everything `loadPage` can change. */
  datatype RouterState = RouterState(
    content: Option<string>,
    title: string,
    history: seq<HistoryEntry>,
    location: string,
    links: seq<NavLink>)

  /** Whether the in-page swap happens: the fetched document has a
      `page-content` element. */
  predicate Swaps(outcome: FetchOutcome) {
    outcome.Parsed? && outcome.doc.pageContent.Some?
  }

  /** `loadPage(page, addToHistory)` as a transition on the router's state. */
  function LoadPageSpec(s: RouterState, page: string, addToHistory: bool, outcome: FetchOutcome): (r: RouterState)
    // A non-ok response, an exception or a document without `page-content`
    // ends in a full navigation to `page`; nothing on the page is touched.
    ensures !Swaps(outcome) ==>
      r.location == page && r.content == s.content && r.title == s.title
      && r.history == s.history && r.links == s.links
    // On a swap the live region shows the fetched markup (when the live page
    // has the region) and the title follows the fetched `<title>`, if any.
    ensures Swaps(outcome) && s.content.Some? ==> r.content == outcome.doc.pageContent
    ensures Swaps(outcome) && s.content.None? ==> r.content.None?
    ensures Swaps(outcome) ==> r.title == outcome.doc.title.GetOr(s.title)
    // A history entry is pushed if and only if `addToHistory`, and then it is
    // the only change to the history and the location follows it.
    ensures Swaps(outcome) ==> |r.history| == |s.history| + (if addToHistory then 1 else 0)
    ensures Swaps(outcome) ==> r.history[..|s.history|] == s.history
    ensures Swaps(outcome) && addToHistory ==>
      r.history[|s.history|] == HistoryEntry(page, HistoryPath(page)) && r.location == HistoryPath(page)
    ensures Swaps(outcome) && !addToHistory ==> r.location == s.location
    // The navigation marks exactly the links to the loaded page.
    ensures Swaps(outcome) ==> |r.links| == |s.links|
    ensures Swaps(outcome) ==> forall k :: 0 <= k < |r.links| ==>
      r.links[k].href == s.links[k].href && (r.links[k].bold <==> s.links[k].href == Some(ActivePageName(page)))
  {
    if Swaps(outcome) then
      var doc := outcome.doc;
      var pushed := if addToHistory then s.history + [HistoryEntry(page, HistoryPath(page))] else s.history;
      RouterState(
        if s.content.Some? then doc.pageContent else s.content,
        if doc.title.Some? then doc.title.value else s.title,
        pushed,
        if addToHistory then HistoryPath(page) else s.location,
        MarkAll(s.links, ActivePageName(page)))
    else
      s.(location := page)
  }

  /** The popstate handler: a popped state with a non-empty `page` is
      re-rendered without recording history; any other event is ignored. */
  function PopStateSpec(s: RouterState, state: Option<string>, outcome: FetchOutcome): (r: RouterState)
    ensures r.history == s.history
    ensures state.None? || state == Some("") ==> r == s
  {
    if state.Some? && state.value != "" then LoadPageSpec(s, state.value, false, outcome) else s
  }

  /** Back/forward re-renders a successfully fetched page and pushes nothing;
      the handler itself does not write the location. */
  lemma PopStateRerenders(s: RouterState, page: string, doc: FetchedDocument)
    requires page != "" && doc.pageContent.Some?
    ensures PopStateSpec(s, Some(page), Parsed(doc)).history == s.history
    ensures PopStateSpec(s, Some(page), Parsed(doc)).location == s.location
    ensures s.content.Some? ==> PopStateSpec(s, Some(page), Parsed(doc)).content == doc.pageContent
  {
  }

  /** `navigate` as it is written maps the root href `/`, which the router
      intercepts, to the empty page name: the page loaded is the empty
      relative URL rather than the index fragment, the entry pushed carries an
      empty `page`, and popstate ignores that entry when the user comes back
      to it. */
  lemma StripLeadingSlashLosesRoot(s: RouterState, doc: FetchedDocument, outcome: FetchOutcome)
    requires doc.pageContent.Some?
    ensures IsInternalLink(Anchor(Some("/"), None))
    ensures StripLeadingSlash("/") == "" && Routes["/"] == IndexPage
    ensures LoadPageSpec(s, StripLeadingSlash("/"), true, Parsed(doc)).history == s.history + [HistoryEntry("", "/")]
    ensures PopStateSpec(s, Some(StripLeadingSlash("/")), outcome) == s
  {
    InternalLinkCharacterised(Anchor(Some("/"), None));
    assert "/"[1..] == "";
  }

  // ---------------------------------------------------------------------------
  // The router object
  // ---------------------------------------------------------------------------

  class Router {
    var content: Option<string>
    var title: string
    var history: seq<HistoryEntry>
    var location: string
    const links: array<NavLink>

    ghost function State(): RouterState
      reads this, links
    {
      RouterState(content, title, history, location, links[..])
    }

    /** Construction and `init`: the page name is derived from the location
        path and installed by replacing the current history entry. */
    constructor (pathname: string, content: Option<string>, title: string, navLinks: seq<NavLink>)
      ensures fresh(links)
      ensures State() == RouterState(content, title, [HistoryEntry(PageOfPath(pathname), pathname)], pathname, navLinks)
    {
      this.content := content;
      this.title := title;
      this.location := pathname;
      this.history := [HistoryEntry(PageOfPath(pathname), pathname)];
      var a := new NavLink[|navLinks|](k requires 0 <= k < |navLinks| => navLinks[k]);
      this.links := a;
    }

    /** `updateActiveLink`: rewrites every link's bold state in place. */
    method UpdateActiveLink(page: string)
      modifies links
      ensures links[..] == MarkAll(old(links[..]), ActivePageName(page))
    {
      var pageName := ActivePageName(page);
      var i := 0;
      while i < links.Length
        invariant 0 <= i <= links.Length
        invariant forall k :: 0 <= k < i ==> links[k] == MarkLink(old(links[k]), pageName)
        invariant forall k :: i <= k < links.Length ==> links[k] == old(links[k])
      {
        links[i] := MarkLink(links[i], pageName);
        i := i + 1;
      }
    }

    /** `loadPage(page, addToHistory)`, given how the fetch ended. */
    method LoadPage(page: string, addToHistory: bool, outcome: FetchOutcome)
      modifies this, links
      ensures State() == LoadPageSpec(old(State()), page, addToHistory, outcome)
    {
      if Swaps(outcome) {
        var doc := outcome.doc;
        if content.Some? {
          content := doc.pageContent;
        }
        if doc.title.Some? {
          title := doc.title.value;
        }
        UpdateActiveLink(page);
        if addToHistory {
          var newPath := HistoryPath(page);
          history := history + [HistoryEntry(page, newPath)];
          location := newPath;
        }
      } else {
        location := page;
      }
    }

    /** `navigate(url)`: a user-initiated load that records history, with the
        page name derived as written (so `/` loads the empty page name; see
        `StripLeadingSlashLosesRoot`). */
    method Navigate(url: string, outcome: FetchOutcome)
      modifies this, links
      ensures State() == LoadPageSpec(old(State()), StripLeadingSlash(url), true, outcome)
    {
      var page := StripLeadingSlash(url);
      LoadPage(page, true, outcome);
    }

    /** The document click listener: an intercepted anchor has its default
        action prevented and is navigated to; any other click is left to the
        browser and changes nothing here. */
    method Click(link: Option<Anchor>, outcome: FetchOutcome) returns (intercepted: bool)
      modifies this, links
      ensures intercepted == (link.Some? && IsInternalLink(link.value))
      ensures intercepted ==> State() == LoadPageSpec(old(State()), StripLeadingSlash(link.value.href.value), true, outcome)
      ensures !intercepted ==> State() == old(State())
    {
      intercepted := link.Some? && IsInternalLink(link.value);
      if intercepted {
        Navigate(link.value.href.value, outcome);
      }
    }

    /** The popstate listener. */
    method PopState(state: Option<string>, outcome: FetchOutcome)
      modifies this, links
      ensures State() == PopStateSpec(old(State()), state, outcome)
    {
      if state.Some? && state.value != "" {
        LoadPage(state.value, false, outcome);
      }
    }
  }
}
