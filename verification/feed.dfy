/**
 * The `repos` / `isLoading` / `isError` state a page keeps around its repository fetch,
 * and how each page turns that state into a view.
 *
 * The fetch itself is not modelled: its result arrives as an `Outcome`. A fetch is
 * `Begin` (the flags written before the request) followed by `Settle` (the `try` body,
 * the `catch` and the `finally` of client/src/pages/Home.jsx:195-220 and
 * client/src/pages/Projects.jsx:33-67).
 */
module Feed {
  import opened Optional
  import opened Repos
  import opened Display

  /** The two pages that fetch the feed. */
  datatype Page = HomePage | ProjectsPage

  /** The cap each page applies after filtering. */
  function Limit(page: Page): Option<nat> {
    match page
    case HomePage => Some(HomeLimit)
    case ProjectsPage => None
  }

  /** What each page stores after a successful response, as its own code computes it. */
  function Shown(page: Page, data: seq<Repo>): (r: seq<Repo>)
    ensures r == FilterFeed(data, Limit(page))
  {
    CallSitesAreFilterFeed(data);
    match page
    case HomePage => HomeFeed(data)
    case ProjectsPage => ProjectsFeed(data)
  }

  datatype FeedState = FeedState(repos: seq<Repo>, isLoading: bool, isError: bool)

  /** The `useState` initial values: no repositories, loading, no error. */
  const Initial: FeedState := FeedState([], true, false)

  /**
   * How a request ends. `Responded` carries the HTTP status and the parsed body, `None`
   * when the body is not a JSON array of repositories; `Aborted` is the cleanup's
   * `controller.abort()`; `NetworkFailure` is any other rejection of `fetch`.
   */
  datatype Outcome =
    | Responded(status: int, body: Option<seq<Repo>>)
    | Aborted
    | NetworkFailure

  /** `response.ok`: a status in the 200-299 range. */
  predicate StatusOk(status: int) { 200 <= status <= 299 }

  /** The request succeeded and produced a list. */
  predicate Succeeded(o: Outcome) {
    o.Responded? && StatusOk(o.status) && o.body.Some?
  }

  /** The request failed for a reason other than cancellation. */
  predicate Failed(o: Outcome) {
    o.NetworkFailure? || (o.Responded? && (!StatusOk(o.status) || o.body.None?))
  }

  /** `setIsLoading(true); setIsError(false)` before the request is issued. */
  function Begin(st: FeedState): (r: FeedState)
    ensures r.isLoading && !r.isError
    ensures r.repos == st.repos
  {
    st.(isLoading := true, isError := false)
  }

  /**
   * The settlement of a request: on success the filtered list is stored; a non-ok status,
   * an unusable body or a network failure raise the error flag; an abort touches neither.
   * `finally` always clears the loading flag.
   */
  function Settle(page: Page, st: FeedState, o: Outcome): (r: FeedState)
    ensures !r.isLoading
    ensures Succeeded(o) ==> r.repos == FilterFeed(o.body.value, Limit(page)) && r.isError == st.isError
    ensures Failed(o) ==> r.isError && r.repos == st.repos
    ensures o.Aborted? ==> r.isError == st.isError && r.repos == st.repos
  {
    var afterTry :=
      match o
      case Responded(status, body) =>
        if !StatusOk(status) then st.(isError := true)
        else if body.None? then st.(isError := true)
        else st.(repos := Shown(page, body.value))
      case Aborted => st
      case NetworkFailure => st.(isError := true);
    afterTry.(isLoading := false)
  }

  /** A whole fetch: the flags are reset, then the request settles. */
  function Fetch(page: Page, st: FeedState, o: Outcome): FeedState {
    Settle(page, Begin(st), o)
  }

  /**
   * After a fetch the loading flag is down; success leaves no error and stores the feed,
   * a failure sets the error flag, and an abort leaves the `false` written at the start.
   */
  lemma FetchOutcomes(page: Page, st: FeedState, o: Outcome)
    ensures !Fetch(page, st, o).isLoading
    ensures Succeeded(o) ==> !Fetch(page, st, o).isError && Fetch(page, st, o).repos == FilterFeed(o.body.value, Limit(page))
    ensures Failed(o) ==> Fetch(page, st, o).isError
    ensures o.Aborted? ==> !Fetch(page, st, o).isError && Fetch(page, st, o).repos == st.repos
    ensures Fetch(page, st, o).isError <==> Failed(o)
  {
  }

  /**
   * The states a page can be in: never loading and failed at once, only listed
   * repositories stored, and never more than the page's cap.
   */
  predicate Valid(page: Page, st: FeedState) {
    && !(st.isLoading && st.isError)
    && (forall x :: x in st.repos ==> Listed(x))
    && (Limit(page).Some? ==> |st.repos| <= Limit(page).value)
  }

  /** Events the page reacts to: a (re)start of the fetch, or its settlement. */
  datatype FeedEvent = Start | Settled(o: Outcome)

  function Step(page: Page, st: FeedState, e: FeedEvent): FeedState {
    match e
    case Start => Begin(st)
    case Settled(o) => Settle(page, st, o)
  }

  /** Applies the events in order. */
  function Run(page: Page, st: FeedState, events: seq<FeedEvent>): FeedState
    decreases |events|
  {
    if |events| == 0 then st else Run(page, Step(page, st, events[0]), events[1..])
  }

  /** Every state reachable from the initial one, by any sequence of events, is `Valid`. */
  lemma {:induction false} RunKeepsValid(page: Page, st: FeedState, events: seq<FeedEvent>)
    requires Valid(page, st)
    ensures Valid(page, Run(page, st, events))
    decreases |events|
  {
    if |events| > 0 {
      var next := Step(page, st, events[0]);
      assert Valid(page, next);
      RunKeepsValid(page, next, events[1..]);
    }
  }

  lemma ReachableStatesValid(page: Page, events: seq<FeedEvent>)
    ensures Valid(page, Run(page, Initial, events))
  {
    RunKeepsValid(page, Initial, events);
  }

  /** What the Home "Featured Projects" grid shows; its four parts are independent conditions. */
  datatype HomeView = HomeView(loadingNotice: bool, errorNotice: bool, cards: seq<HomeCard>, emptyNotice: bool)

  function RenderHome(st: FeedState): (v: HomeView)
    ensures v.loadingNotice <==> st.isLoading
    ensures v.errorNotice <==> st.isError
    ensures |v.cards| > 0 ==> !st.isLoading && !st.isError
    ensures v.emptyNotice <==> !st.isLoading && !st.isError && |st.repos| == 0
    ensures !st.isLoading && !st.isError ==>
      |v.cards| == |st.repos| && forall i :: 0 <= i < |st.repos| ==> v.cards[i] == HomeCardOf(st.repos[i])
  {
    var ready := !st.isLoading && !st.isError;
    HomeView(
      st.isLoading,
      st.isError,
      if ready then seq(|st.repos|, i requires 0 <= i < |st.repos| => HomeCardOf(st.repos[i])) else [],
      ready && |st.repos| == 0)
  }

  /** In a reachable state the Home grid shows exactly one of its four parts. */
  lemma HomeViewExclusive(st: FeedState)
    requires Valid(HomePage, st)
    ensures
      var v := RenderHome(st);
      (if v.loadingNotice then 1 else 0) + (if v.errorNotice then 1 else 0)
        + (if |v.cards| > 0 then 1 else 0) + (if v.emptyNotice then 1 else 0) == 1
    ensures |RenderHome(st).cards| <= 3
  {
  }

  /** Number of placeholder cards while the Projects page loads. */
  const SkeletonCount: nat := 6

  /** What the Projects grid shows: exactly one of four branches. */
  datatype ProjectsView =
    | Skeletons(count: nat)
    | ErrorNotice
    | Cards(cards: seq<ProjectCard>)
    | EmptyNotice

  /** Loading takes precedence over error, error over cards, cards over the empty notice. */
  function RenderProjects(st: FeedState): (v: ProjectsView)
    ensures v.Skeletons? <==> st.isLoading
    ensures v.ErrorNotice? <==> !st.isLoading && st.isError
    ensures v.Cards? <==> !st.isLoading && !st.isError && |st.repos| > 0
    ensures v.EmptyNotice? <==> !st.isLoading && !st.isError && |st.repos| == 0
    ensures v.Skeletons? ==> v.count == 6
    ensures v.Cards? ==>
      |v.cards| == |st.repos| && forall i :: 0 <= i < |st.repos| ==> v.cards[i] == ProjectCardOf(st.repos[i])
  {
    if st.isLoading then Skeletons(SkeletonCount)
    else if st.isError then ErrorNotice
    else if |st.repos| > 0 then Cards(seq(|st.repos|, i requires 0 <= i < |st.repos| => ProjectCardOf(st.repos[i])))
    else EmptyNotice
  }

  /** A successful fetch with nothing listed shows the empty notice, never the error notice. */
  lemma EmptyFeedIsNotAnError(page: Page, st: FeedState, o: Outcome)
    requires Succeeded(o) && CountListed(o.body.value) == 0
    ensures RenderProjects(Fetch(page, st, o)) == EmptyNotice
    ensures RenderHome(Fetch(page, st, o)).emptyNotice && !RenderHome(Fetch(page, st, o)).errorNotice
  {
    KeepLength(o.body.value);
    match page {
      case HomePage => FilterFeedIsCappedKeep(o.body.value, HomeLimit);
      case ProjectsPage => FilterFeedUncappedIsKeep(o.body.value);
    }
  }
}
