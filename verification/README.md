# Portfolio site scripts: router, theme switcher and menu toggle

This project models the three browser scripts of a static portfolio site in Dafny.

- The fragment router (`public/js/router.js`) intercepts clicks on links to the site's six routes. It fetches the target page and swaps that page's `page-content` region into the live page. It then updates the document title, the bold marking of the navigation links and the browser history. When the fetch fails, or when the fetched page has no `page-content` region, it falls back to a full navigation.
- The theme switcher (`public/js/theme.js`) keeps a light/dark state as the body's `dark-mode` class. It persists the state under the storage key `portfolio-theme` and shows it on every `.theme-toggle` button. It follows the system colour-scheme preference only while the user has stored no choice.
- The menu toggle (`public/js/nav.js`) opens and closes `.nav-links` through its `active` class. It keeps the toggle's `aria-expanded` attribute and its `[ MENU ]` / `[ CLOSE ]` label in step with that class. A click on any menu link closes the menu.

Files:

- `wrappers.dfy` defines the `Option` type.
- `router.dfy` (module `Router`) holds the route table, the link classifier, the path normalisations, the active-link marking and the page-load transition `LoadPageSpec`. It also holds the class `Router`, whose fields are the live content region, the title, the pushed history entries, the location and an array of navigation links.
- `theme.dfy` (module `Theme`) holds the theme decisions as functions on a `ThemeState`. It also holds the class `ThemeSwitcher`, whose fields are the body class, local storage and an array of toggle buttons.
- `nav.dfy` (module `Nav`) holds the menu transitions on a `MenuState` and the class `NavMenu`.

Each class exposes its state as a value (`State()`). Each handler method is proved to move that state exactly as a pure transition function says. The properties of the scripts are proved as `ensures` clauses of those functions and as lemmas that relate several of them.

Inputs the scripts get from the browser become parameters:

- The result of `fetch` plus `DOMParser` is a `FetchOutcome`: a non-ok status, a thrown exception, or a parsed document whose `page-content` markup and `<title>` text may each be missing.
- The `popstate` event's state is an `Option<string>` holding the `page` it carries.
- The clicked element's enclosing anchor is an `Option<Anchor>`.
- `prefers-color-scheme: dark` is a boolean. It is false where `matchMedia` is missing.
- Local storage is a `map<string, string>`.
- For the menu, the presence of `.nav-toggle` and `.nav-links` is two booleans given to the constructor.

## Model

| member | source | states |
|---|---|---|
| Router.IsInternalLink | public/js/router.js:46-61 | An intercepted anchor has a present, non-empty href and no `_blank` target. Its href, or `'/' + href`, is a route key. |
| Router.InternalLinkCharacterised | public/js/router.js:46-61 | An anchor is intercepted exactly when its href is one of the six route keys or one of the five resource names without `/`, and its target is not `_blank`. So a missing or empty href, an `http://`, `https://` or `mailto:` URL and a `#` anchor are never intercepted. |
| Router.RouteKeyTest | public/js/router.js:60 | For a non-empty href, "`'/' + href` or `href` is a route key" holds exactly for those eleven hrefs. |
| Router.InternalHrefsHaveNoRejectedPrefix | public/js/router.js:50-56 | None of the routable hrefs is empty or starts with `http://`, `https://`, `mailto:` or `#`. The prefix checks therefore never reject a routable link. |
| Router.RouteTargetIsInternal | public/js/router.js:8-15 | Every route target v has `'/' + v` as a route key, so a link whose href is any route target is intercepted. |
| Router.StripLeadingSlash | public/js/router.js:65 | `navigate`'s normalisation as written: a URL starting with `/` is `'/' + page`, and any other URL is returned unchanged. |
| Router.StripLeadingSlashOnRouteKeys | public/js/router.js:65 | For every route key except `/`, stripping the slash gives that key's route target. |
| Router.NavigatePage | public/js/router.js:65 | The corrected normalisation, which the router class does not use: every route key, `/` included, yields its route target. |
| Router.NavigatePageAgrees | public/js/router.js:65 | The corrected normalisation and the one as written give the same page name for every URL other than `/`. |
| Router.NavigateResolvesRoute | public/js/router.js:22-31 | Under the corrected normalisation, every intercepted link navigates to the route target of its href. The href is looked up as written, or with `/` prefixed when the bare form is not a key. |
| Router.StripLeadingSlashResolvesRoute | public/js/router.js:22-31 | Under the normalisation as written, every intercepted link except `/` navigates to the route target of its href. For `/` see `Router.StripLeadingSlashLosesRoot`. |
| Router.StripLeadingSlashLosesRoot | public/js/router.js:65 | As written, the intercepted href `/` gives the empty page name, not `index.html`. The successful load pushes the entry `{page: ""}` at path `/`, and popstate ignores that entry. |
| Router.PageOfPath | public/js/router.js:42 | At start-up the path `/` gives `index.html`. Any other path starting with `/` is `'/'` followed by the page name derived from it. |
| Router.HistoryPath | public/js/router.js:128 | A pushed history path always starts with `/`. |
| Router.HistoryPathRoundTrip | public/js/router.js:42 | For every non-empty page name, deriving the page from its history path at start-up gives the page back. |
| Router.PathRoundTrip | public/js/router.js:128 | For a path starting with `/`, the history path of the page derived from it is the path itself. The one exception is `/index.html`, which comes back as `/`. |
| Router.ActivePageName | public/js/router.js:147 | `/` normalises to `index.html`, and every other page name is kept, so the result is never `/`. |
| Router.LinkMatches | public/js/router.js:157 | For any page name other than `/`, a link matches exactly when its href equals the name. For `/`, the hrefs `index.html` and `/` match. |
| Router.MarkLink | public/js/router.js:153-167 | Adding a missing bold and removing a bold that should not be there both end in the same place. The link is bold exactly when it matches the page, and its href is unchanged. |
| Router.MarkAll | public/js/router.js:150-168 | Every navigation link keeps its href and ends up bold exactly when it matches the page. The length is unchanged. |
| Router.ActiveLinkIsExactMatch | public/js/router.js:157 | After marking for a page, a link is bold exactly when its href equals the normalised page name. The `pageName === '/'` disjunct never fires. |
| Router.MarkAllIdempotent | public/js/router.js:145-169 | Marking twice for the same page gives the same links as marking once. |
| Router.LoadPageSpec | public/js/router.js:71-143 | A non-ok response, an exception or a document without `page-content` sets the location to the page and leaves content, title, history and links untouched. On a swap: the content becomes the fetched markup when the live region exists, the title follows a present `<title>`, and links are bold exactly for the page. Exactly one entry `{page, HistoryPath(page)}` is pushed, and the location follows it, if and only if `addToHistory`. Otherwise history and location are unchanged. |
| Router.PopStateSpec | public/js/router.js:34-38 | A popstate never changes the history. A missing or empty `page` leaves the whole state unchanged. |
| Router.PopStateRerenders | public/js/router.js:34-37 | Back/forward to a page that fetches with `page-content` shows that content. It pushes nothing, and the handler does not write the location. |
| Router.Router.constructor | public/js/router.js:40-43 | Start-up replaces the current history entry with `{page: PageOfPath(pathname)}` at the current path. |
| Router.Router.UpdateActiveLink | public/js/router.js:145-169 | The loop rewrites the link array in place to `MarkAll` of its old contents and the normalised page name. |
| Router.Router.LoadPage | public/js/router.js:71-143 | The router's state after the call is `LoadPageSpec` of its state before. |
| Router.Router.Navigate | public/js/router.js:63-69 | A load that records history, of `StripLeadingSlash(url)`: the page name as written, with one leading `/` removed. |
| Router.Router.Click | public/js/router.js:22-31 | The default action is prevented exactly for intercepted anchors. Each is then navigated to at `StripLeadingSlash(href)`. Any other click leaves the state unchanged. |
| Router.Router.PopState | public/js/router.js:34-38 | The router's state after the event is `PopStateSpec` of its state before. |
| Theme.ThemeName | public/js/theme.js:64 | The body class reads as `dark` exactly when it is set and as `light` exactly when it is not. |
| Theme.SavedTheme | public/js/theme.js:17-29 | A non-empty stored value is returned as it is, whatever string it holds. Otherwise the result is `dark` exactly when the system prefers dark and `light` exactly when it does not. The result is never empty. |
| Theme.ButtonFor | public/js/theme.js:48-58 | The button shows the sun and "Switch to Light Mode" exactly when the theme is `dark`. It shows the moon and "Switch to Dark Mode" for every other string. Title and aria-label are always equal. |
| Theme.ApplyThemeSpec | public/js/theme.js:34-43 | The body is dark exactly when the theme is `dark`, so an unknown string gives the light state. Storage is unchanged, and every button shows the label for the resulting state. |
| Theme.ToggleSpec | public/js/theme.js:63-72 | The body class flips, the new theme's name is stored under `portfolio-theme`, and every button shows the new state. |
| Theme.SystemChangeSpec | public/js/theme.js:96-103 | With a stored choice a preference change does nothing. Without one, the state becomes dark exactly when `matches`, storage is unchanged, and every button, with the count kept, follows. |
| Theme.InitSpec | public/js/theme.js:77-79 | Page load makes the body dark exactly when `getSavedTheme` gives `dark`. It leaves storage unchanged and labels every button, with the count kept, for the resulting state. |
| Theme.InitFollowsSystemPreference | public/js/theme.js:77-79 | On a load with no stored choice, the applied state is the system preference and storage is untouched. |
| Theme.InitFollowsSavedChoice | public/js/theme.js:17-21 | On a load with a stored choice, the body is dark exactly when the stored string is `dark`, whatever the system prefers. Storage is untouched. |
| Theme.ToggleTwice | public/js/theme.js:63-72 | Two toggles restore the body class. When the buttons agreed with the body before, the whole state returns, except that the original theme is now stored. |
| Theme.ToggleIsRemembered | public/js/theme.js:68-71 | After a toggle the stored value is a saved choice equal to the applied theme. The next page load therefore reproduces the same state, whatever the system prefers. |
| Theme.SystemChangeIgnoredAfterToggle | public/js/theme.js:97-101 | After any toggle, a system-preference change leaves the state unchanged. |
| Theme.ThemeSwitcher.constructor | public/js/theme.js:77-93 | Page load applies the saved or system-preferred theme to the initial body class and buttons. |
| Theme.ThemeSwitcher.UpdateToggleButtons | public/js/theme.js:48-58 | The loop sets every button to the label for the theme. |
| Theme.ThemeSwitcher.ApplyTheme | public/js/theme.js:34-43 | The state after the call is `ApplyThemeSpec` of the state before. |
| Theme.ThemeSwitcher.ToggleTheme | public/js/theme.js:63-72 | The state after the call is `ToggleSpec` of the state before. |
| Theme.ThemeSwitcher.SystemPreferenceChanged | public/js/theme.js:96-103 | The state after the event is `SystemChangeSpec` of the state before. |
| Nav.AttributeText | public/js/nav.js:11 | The written `aria-expanded` value is `"true"` exactly for an expanded menu and `"false"` exactly for a closed one. |
| Nav.ToggleClick | public/js/nav.js:6-19 | `active` flips. Then `aria-expanded` is `"true"` and the label is `[ CLOSE ]` exactly when `active`, and they are `"false"` and `[ MENU ]` exactly when not. |
| Nav.LinkClick | public/js/nav.js:23-27 | From any state, the menu ends closed with `aria-expanded` `"false"` and the label `[ MENU ]`. |
| Nav.HandlersRestoreConsistency | public/js/nav.js:7-26 | Both handlers leave the attribute and the label consistent with the class, from any state. |
| Nav.ToggleTwice | public/js/nav.js:7 | Two toggle clicks restore `active`. On a consistent menu they restore the whole state. |
| Nav.LinkClickIdempotent | public/js/nav.js:23-27 | A second link click changes nothing. A link click on a consistent closed menu changes nothing. |
| Nav.NavMenu.constructor | public/js/nav.js:2-5 | Handlers are installed exactly when both `.nav-toggle` and `.nav-links` exist. |
| Nav.NavMenu.OnToggleClick | public/js/nav.js:5-19 | With handlers installed the state becomes `ToggleClick` of the old state. Without them it is unchanged. |
| Nav.NavMenu.OnLinkClick | public/js/nav.js:21-28 | With handlers installed the state becomes `LinkClick` of the old state. Without them it is unchanged. |

## Findings

| source | as written | input that shows it | evidently intended | confidence | as-written member | corrected member |
|---|---|---|---|---|---|---|
| public/js/router.js:65 | `navigate` strips the leading slash, so the route key `/` gives the page name `""`. | A click on an anchor with `href="/"`, which `isInternalLink` accepts because `/` is a route key. It loads the empty relative URL, which is the current document rather than `index.html`, and pushes `{page: ""}` at `/`. Popstate ignores that entry on back/forward because its `page` is empty. | `/` names `index.html`, as start-up (line 42) and the route table (line 9) both say. | medium, not executed | Router.StripLeadingSlashLosesRoot | Router.NavigatePage |

`Router.Router.Navigate` and `Router.Router.Click` keep the normalisation as written (`StripLeadingSlash`), so the router class behaves as the code does. `NavigatePage` is the corrected reference definition, and `NavigateResolvesRoute` proves the intended property about it. `NavigatePageAgrees` proves that the two give the same page name for every URL other than `/`.

## Left out

- `fetch`, `response.text()` and `DOMParser` are not modelled. Their combined result is the `FetchOutcome` input.
- An exception thrown part-way through the in-page swap, after some of the page has already changed, is not modelled. `Threw` stands for a failure before the swap begins, and its fallback leaves the page untouched.
- The opacity fade, the 50 ms `setTimeout`, the forced reflow and `window.scrollTo(0, 0)` are purely cosmetic and are not modelled.
- Overlapping navigations are not modelled. A second click can arrive while `loadPage` is suspended at one of its `await`s. That is event-loop interleaving, and the script has no guard against it.
- The browser's back/forward cursor is not modelled. The history is the sequence of entries the router installs. Popstate receives the popped state as an input. The truncation of forward entries on a push is also left out.
- Setting `window.location.href` is modelled as assigning the page name to `location`. The full page load that follows belongs to the browser. The `location` field therefore holds a path after start-up or a push (`/about.html`), and a bare relative name after a fallback (`about.html`). URL resolution is not modelled.
- Router.Router.PopState: does not move `location` to the popped entry's path. The browser changes the URL before the event fires, and the handler never writes it. Since the history cursor is not modelled, the model keeps whatever `location` held before the event.
- `innerText`/`innerHTML` rewriting is not modelled. Each navigation link is reduced to its `href` and whether its text is wrapped in `<b>`.
- `console.warn`/`console.error` diagnostics and the empty `reinitializeThemeToggle` are not modelled.
- Event-listener registration, `DOMContentLoaded` timing, `matchMedia` and `localStorage` mechanics are not modelled. The theme switcher's body-class, storage and button fields stand for them.
- `serve.py` is not part of this model. It is a local development server with no site logic.
