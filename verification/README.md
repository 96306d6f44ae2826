# Portfolio site: a functional model of its page logic

The site is a React single-page portfolio with five routes: Home, About, Service,
Projects and Contact. Most of it is markup and animation. This project models the
parts of it that compute something, as immutable datatypes and pure functions, and
proves what they promise:

- **The repository feed** (`Repos`). The listing returned by the remote endpoint is
  filtered to drop forks and the site's own `portfolio` repository (in any
  capitalisation). The list keeps its remote order and may be capped. Home caps the
  list at three; Projects shows all of it. `FilterFeed(repos, limit)` is the single
  definition, and both call sites are proved to be instances of it.
- **The feed flags** (`Feed`). Each page keeps `repos`, `isLoading` and `isError`.
  A fetch resets the flags, then settles in one of four ways:
  - an ok response with a usable body;
  - a non-ok status or an unusable body;
  - a network failure;
  - an abort from the effect's cleanup.

  `finally` always clears `isLoading`. Every reachable state is proved consistent.
  The module also gives each page's render decision: Home's four independent conditions
  and the Projects page's four-way precedence.
- **Card display** (`Display`):
  - Home replaces `-` and `_` with spaces.
  - Projects also upper-cases the first character of every space-separated word.
    This is proved equal to a character-by-character reference definition, and idempotent.
  - The `||` fallbacks for a missing description or language.
  - The live link, shown only for a non-empty homepage.
- **Stable React keys** (`StableKey`, over the fixed lists in `SiteContent`):
  - The Service slug: lower-case, then every character outside `[a-z0-9]` becomes `-`.
  - The About key: slug, `-`, then the decimal index. It can be decoded back to the
    slug and the index.
  - Every list the pages key this way gets pairwise distinct keys. This includes all
    39 skills keyed with index 0.
- **The contact form** (`Contact`). Four fields, a status of none, success or error,
  and an `isSubmitting` flag. Edits, submission and the email relay's two answers are
  events. Inputs and the button are disabled while a request is in flight.
- **The navigation bar** (`Navbar`):
  - Menu items map to paths, identically in the desktop and the mobile menu.
  - The hamburger toggles the mobile menu; following a mobile link closes it. The logo
    link leads home.
  - The router's child routes, and proofs that every menu target reaches a page
    rather than the 404 route.

Case conversion is ASCII-only (`Ascii`). Strings are `seq<char>`. Optional JSON fields
are `Option` values (`Optional`).

## Model

| member | source | states |
|---|---|---|
| Ascii.Lower | client/src/pages/Home.jsx:208 | Lower-casing keeps the length and maps each character independently: ASCII capitals become their small letters and nothing else changes |
| Repos.Keep | client/src/pages/Projects.jsx:54-56 | The filtered list is no longer than the response and contains only response entries that are not forks and whose lower-cased name is not "portfolio" |
| Repos.Slice | client/src/pages/Home.jsx:209 | `slice(0, n)` yields min(n, length) elements, each equal to the element at the same position of the input |
| Repos.FilterFeed | client/src/pages/Home.jsx:207-209 | The unified feed contains only response entries that are not forks and not named "portfolio" in any case, never more than the cap, and never more than the response |
| Repos.FilterFeedIsCappedKeep | client/src/pages/Home.jsx:207-209 | Cutting the single pass off after n listed entries gives exactly the first n entries of the uncapped filter |
| Repos.FilterFeedUncappedIsKeep | client/src/pages/Projects.jsx:54-56 | Without a cap the unified feed is exactly the plain filter |
| Repos.CallSitesAreFilterFeed | client/src/pages/Home.jsx:207-209 | Home's filter-then-slice(0, 3) is the unified feed with cap 3, and Projects' filter is the unified feed with no cap |
| Repos.HomeFeedIsFirstThree | client/src/pages/Home.jsx:207-209 | Home shows min(3, number of listed repositories) entries: the first ones of the filtered list, in remote order, none of them a fork or "portfolio" |
| Repos.KeepLength | client/src/pages/Projects.jsx:54-56 | The filter keeps exactly as many entries as the response has listed repositories |
| Repos.KeepMembership | client/src/pages/Projects.jsx:54-56 | A repository is in the filtered list if and only if it is in the response and is listed |
| Repos.KeepIsSubsequence | client/src/pages/Projects.jsx:54-56 | The filtered list is an order-preserving subsequence of the response |
| Repos.KeepIsUnique | client/src/pages/Projects.jsx:54-56 | Any order-preserving subsequence of listed repositories that is as long as the number of listed repositories is the filtered list, so the filter is characterised independently of its definition |
| Repos.SubsequenceCountBound | client/src/pages/Projects.jsx:54-56 | No order-preserving selection of listed repositories is longer than the number of listed repositories |
| Repos.KeepAppend | client/src/pages/Projects.jsx:54-56 | Filtering a concatenation is concatenating the filtered parts |
| Repos.KeepFixedPoint | client/src/pages/Projects.jsx:54-56 | The filter returns its input unchanged if and only if every entry is listed |
| Repos.KeepIdempotent | client/src/pages/Projects.jsx:54-56 | Filtering an already filtered list returns it unchanged |
| Repos.FilterFeedIdempotent | client/src/pages/Home.jsx:207-209 | Applying the capped or uncapped feed to its own output returns it unchanged |
| Repos.ExampleFeed | client/src/pages/Home.jsx:207-209 | For a response of "Portfolio", a fork and two listed repositories, a cap of two keeps exactly the two listed ones in order |
| Display.SpaceSeparators | client/src/pages/Home.jsx:127 | The Home title has the name's length, contains no `-` or `_`, has a space where the name had one of them and keeps every other character |
| Display.SpaceSeparatorsIdempotent | client/src/pages/Home.jsx:127 | Replacing separators in an already formatted title changes nothing |
| Display.Split | client/src/pages/Projects.jsx:133 | `split(' ')` returns at least one piece, and no piece contains a space |
| Display.JoinSplit | client/src/pages/Projects.jsx:133 | Joining the pieces of `split(' ')` with single spaces gives back the original string |
| Display.Capitalize | client/src/pages/Projects.jsx:133 | Capitalising a word keeps its length, upper-cases its first character and keeps the rest |
| Display.SplitCapitalizeJoin | client/src/pages/Projects.jsx:133 | Split, capitalise each piece and join equals the character-by-character reference that upper-cases exactly the characters at word starts |
| Display.TitleCaseSpec | client/src/pages/Projects.jsx:133 | The Projects title has the name's length; a character that starts a space-separated word of the separator-replaced name is upper-cased, and every other character equals the separator-replaced name |
| Display.TitleCaseIdempotent | client/src/pages/Projects.jsx:133 | Formatting an already formatted title returns it unchanged |
| Display.OrElse | client/src/pages/Projects.jsx:136 | The logical-or fallback is the fallback exactly when the text is null or empty, and the text otherwise |
| Display.LiveLink | client/src/pages/Projects.jsx:159-168 | The live link is shown if and only if the homepage is present and non-empty, and then it points to the homepage |
| Display.ProjectCardFallbacks | client/src/pages/Projects.jsx:118-148 | A Projects card is keyed by the repository id, shows "No description provided." and "Code" for a missing or empty description and language and the values otherwise, and its title has the name's length |
| Display.HomeCardFallbacks | client/src/pages/Home.jsx:127-130 | A Home card is keyed by the repository id, shows "No description available." for a missing or empty description and the description otherwise, and its title has the name's length |
| Feed.Shown | client/src/pages/Home.jsx:207-211 | What each page stores after a successful response is the unified feed with that page's cap |
| Feed.Begin | client/src/pages/Projects.jsx:33-34 | Starting a fetch raises the loading flag, clears the error flag and keeps the stored list |
| Feed.Settle | client/src/pages/Home.jsx:198-219 | A settled request always clears the loading flag. Success stores the filtered feed and keeps the error flag. A non-ok status, an unusable body or a network failure raise the error flag and keep the list. An abort changes neither |
| Feed.FetchOutcomes | client/src/pages/Home.jsx:195-219 | After a whole fetch the loading flag is down, and the error flag is up if and only if the request failed for a reason other than an abort. Success stores the feed. An abort leaves the list as it was |
| Feed.RunKeepsValid | client/src/pages/Projects.jsx:31-75 | Any sequence of fetch starts and settlements preserves the state invariant: never loading and failed at once, only listed repositories stored, and never more than the page's cap |
| Feed.ReachableStatesValid | client/src/pages/Home.jsx:191-227 | Every state reachable from the initial one satisfies the invariant |
| Feed.RenderHome | client/src/pages/Home.jsx:382-398 | The loading and error notices show exactly with their flags. Cards appear only when neither flag is up, one per stored repository. The empty notice shows exactly when neither flag is up and no repository is stored |
| Feed.HomeViewExclusive | client/src/pages/Home.jsx:382-398 | In every reachable state exactly one of Home's four parts is shown, and there are at most three cards |
| Feed.RenderProjects | client/src/pages/Projects.jsx:108-179 | Projects shows exactly one branch, in the order loading (6 skeletons), error, cards (one per stored repository), empty notice; each branch is shown if and only if its condition holds and the earlier ones fail |
| Feed.EmptyFeedIsNotAnError | client/src/pages/Projects.jsx:174-178 | A successful response with nothing listed shows the empty notice on both pages, never the error notice |
| StableKey.Slug | client/src/pages/Service.jsx:7 | The Service key has the title's length and only characters from `[a-z0-9-]` |
| StableKey.SlugCharacters | client/src/pages/Service.jsx:7 | Character by character, a capital letter becomes its small letter, small letters and digits are kept, and every other character becomes `-` |
| StableKey.SlugIdempotent | client/src/pages/Service.jsx:7 | Sanitising a key again changes nothing |
| StableKey.Decimal | client/src/pages/About.jsx:5 | `${index}` is a non-empty string of decimal digits without a leading zero |
| StableKey.DecimalRoundTrip | client/src/pages/About.jsx:5 | Reading the digits back gives the index |
| StableKey.DecimalLength | client/src/pages/About.jsx:5 | With len the number of digits: index < 10^len, and 10^(len-1) <= index when index >= 1 (`${0}` is the one digit "0") |
| StableKey.IndexedKey | client/src/pages/About.jsx:5 | The About key is the Service-style slug, then `-`, then the decimal index, so its length is the string's length plus one plus the number of digits |
| StableKey.DecodeIndexedKey | client/src/pages/About.jsx:5 | Splitting a key at its last `-` and reading the digits recovers the slug and the index |
| StableKey.IndexedKeyInjective | client/src/pages/About.jsx:5 | Equal About keys have equal indices and equal slugs |
| StableKey.IndexedKeysDistinct | client/src/pages/About.jsx:162 | Entries keyed with their own position never share a key, whatever their text |
| StableKey.AboutListKeysDistinct | client/src/pages/About.jsx:62-72 | The experience entries and the achievements get pairwise distinct keys |
| StableKey.ServiceKeysDistinct | client/src/pages/Service.jsx:45-66 | The four service titles produce four pairwise distinct keys |
| StableKey.SkillSlugsDistinct | client/src/pages/About.jsx:7-58 | The 39 skills have pairwise distinct slugs |
| StableKey.AboutSkillKeysDistinct | client/src/pages/About.jsx:139 | Keying every skill with index 0 still gives pairwise distinct keys |
| StableKey.HomeSkillKeysDistinct | client/src/pages/Home.jsx:354-355 | Home keys the skills by their text, and the texts are pairwise distinct |
| Contact.Step | client/src/pages/Contact.jsx:25-57 | An event the page does not accept leaves the state unchanged. Edits and submit are ignored while submitting. Relay answers count only while a request is in flight |
| Contact.EditChangesOneField | client/src/pages/Contact.jsx:25-29 | An edit sets the named field, leaves the other three unchanged and resets the status to none |
| Contact.SubmitStartsRequest | client/src/pages/Contact.jsx:31-34 | Submitting a complete form raises `isSubmitting`, clears the status and keeps the fields |
| Contact.RelayOkClearsForm | client/src/pages/Contact.jsx:44-56 | A successful relay sets the status to success, empties all four fields and lowers `isSubmitting` |
| Contact.RelayFailKeepsForm | client/src/pages/Contact.jsx:49-56 | A failed relay sets the status to error, keeps all four fields and lowers `isSubmitting` |
| Contact.DisabledWhileSubmitting | client/src/pages/Contact.jsx:130-165 | While submitting, no edit and no submit has any effect |
| Contact.RunKeepsValid | client/src/pages/Contact.jsx:31-56 | Under any event sequence, a state that is submitting has no status and a complete form |
| Contact.ReachableStatesValid | client/src/pages/Contact.jsx:6-13 | Every state reached from the empty form with no status and nothing in flight satisfies that invariant |
| Contact.InFlightFormFrozen | client/src/pages/Contact.jsx:122-165 | While a request is in flight, any sequence of edits and submits leaves the whole state unchanged |
| Contact.StatusMessage | client/src/pages/Contact.jsx:78-86 | The message is the success text if and only if the status is success, the failure text if and only if it is error, and absent if and only if it is none |
| Contact.ButtonLabel | client/src/pages/Contact.jsx:174 | The button reads "Sending..." if and only if a request is in flight |
| Navbar.PathFor | client/src/pages/Navbar.jsx:58 | Every target starts with `/`; "Home" maps to exactly `/`, and any other item to `/` followed by its lower-cased name |
| Navbar.MenuPaths | client/src/pages/Navbar.jsx:8 | The five items lead to "/", "/about", "/service", "/projects" and "/contact" |
| Navbar.DesktopLinks | client/src/pages/Navbar.jsx:55-63 | The desktop menu has one link per item, in order, with the item's text and target, and no click handler |
| Navbar.MobileLinks | client/src/pages/Navbar.jsx:91-110 | The mobile menu renders nothing when closed; when open it has one link per item with the item's text and target, each closing the menu |
| Navbar.DesktopAndMobileAgree | client/src/pages/Navbar.jsx:102 | The open mobile menu offers the same texts and targets as the desktop menu, in the same order |
| Navbar.FirstMatch | client/src/App.jsx:36-73 | The result is the position of a matching route with no matching route before it, and absent only if no route matches |
| Navbar.Resolve | client/src/App.jsx:36-73 | The rendered route is one of the declared children and matches the path; it is the 404 catch-all if and only if no other route matches |
| Navbar.ResolvesToFirstMatch | client/src/App.jsx:36-73 | A path is rendered by the earliest declared route that matches it |
| Navbar.MenuItemRoute | client/src/App.jsx:37-71 | Each menu item's target resolves to the page route of the same name, and Home's to the index route |
| Navbar.MenuItemsRouted | client/src/pages/Navbar.jsx:55-63 | Every menu target starts with `/` and reaches a page, not the 404 route. The five targets are pairwise distinct and lead to five different pages |
| Navbar.Step | client/src/pages/Navbar.jsx:49-104 | The hamburger flips `open` and keeps the location. The logo leads to "/" and leaves `open` alone. A desktop link navigates and leaves `open` alone. A mobile link navigates and closes the menu. A click on a mobile link while the menu is closed changes nothing |
| Navbar.ToggleTwice | client/src/pages/Navbar.jsx:68 | Pressing the hamburger twice restores the state |
| Navbar.MobileLinkCloses | client/src/pages/Navbar.jsx:104 | After following a mobile link the menu is closed, renders no links, and the location is that item's target |
| Navbar.LinksRouted | client/src/pages/Navbar.jsx:99-104 | Every rendered link, desktop or mobile, targets a routed page |
| Navbar.StepKeepsRouted | client/src/App.jsx:37-72 | From a routed page, any navbar event (hamburger, logo, desktop or mobile link) leads to a routed page |
| Navbar.NavigationStaysRouted | client/src/App.jsx:37-72 | Navigating only through the navbar, by the logo or the menu links, never reaches the 404 route from a routed page |
| Navbar.StartedOnMenuTargetStaysRouted | client/src/pages/Navbar.jsx:6 | The navbar mounts with the menu closed, and from any menu target every sequence of navbar events stays on a routed page |

## Left out

- The network requests are not modelled: `fetch`, `response.json()` and the `AbortController`
  lifecycle (client/src/pages/Home.jsx:192-226, client/src/pages/Projects.jsx:37-74) are I/O.
  Their results enter the model as an `Outcome`. A body that is not a usable array,
  including one on which `filter` throws, is `Responded(status, None)`.
- Only unmount aborts a request. The effects depend only on the constant user name, so
  a second request never overlaps a first. Interleavings of two in-flight requests are
  not modelled.
- The `emailjs.sendForm` call and its configuration IDs (client/src/pages/Contact.jsx:17-19,36-42)
  are a third-party SDK call; its settlement enters as `RelayOk` or `RelayFail`.
- Contact.Step: the browser's format check of the `type="email"` field is not modelled. A
  submit is accepted for any complete form, i.e. all four fields non-empty (the `required`
  attribute).
- Contact.Step: a relay answer that arrives while nothing is in flight is ignored. The page
  cannot produce one.
- Ascii.Lower: only ASCII letters change case. JavaScript's `toLowerCase` and `toUpperCase`
  follow full Unicode and can change a string's length (for example `İ`, U+0130,
  lower-cases to `i` followed by a combining dot, two code units).
- Display.TitleCaseSpec: the same ASCII restriction applies to `toUpperCase`.
- StableKey.Slug: a Dafny `char` is a whole Unicode scalar value, while a JavaScript string
  is a sequence of UTF-16 code units. The regular expression has no `u` flag, so the page
  turns a character outside the Basic Multilingual Plane (an emoji, say) into two `-`
  where the model gives one. None of the titles the site keys contains such a character.
- Mouse-tilt, scroll-spring and every framer-motion animation are presentation and
  floating-point code. So are the JSX markup, the styling and the `document.title` updates.
- Lazy loading, `Suspense`, the layout, page transitions and the footer are library or
  static code. The route list is kept only as the constant `Navbar.Routes`.
- Navbar.Resolve: matching is exact string equality with each route's path. React
  Router's own normalisation (trailing slashes, case) is library behaviour and is not
  modelled.
- The skill list is declared identically on Home (client/src/pages/Home.jsx:12-63) and on
  About (client/src/pages/About.jsx:7-58). It is defined once here as `SiteContent.Skills`.
- The repository fields the pages never read are omitted from `Repos.Repo`.
