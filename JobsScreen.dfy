/**
 * The decisions the job list screen takes (screens/Jobs.kt): when to ask
 * for more, what a card shows, which key a card uses for favourites and
 * for navigation, and which row its favourite button writes.
 */
module JobsScreen {
  import opened Options
  import opened Entity
  import opened JobRecords
  import opened Feed
  import opened ViewModel
  import Routes

  /**
   * `shouldLoadMore`: some item is visible, the last visible one is at or
   * past the last job, and no fetch is running. The scroll state is reduced
   * to the index of the last visible item (None when nothing is visible).
   */
  function ShouldLoadMore(lastVisible: Option<int>, jobCount: int, isLoading: bool): (r: bool)
    ensures r ==> !isLoading && lastVisible.Some?
    ensures lastVisible.Some? && !isLoading ==> (r <==> lastVisible.value >= jobCount - 1)
  {
    lastVisible.Some? && lastVisible.value >= jobCount - 1 && !isLoading
  }

  /** The `LaunchedEffect` on `shouldLoadMore`: `onLoadMore()` only when it is true. */
  function LoadMoreEffect(should: bool, s: Session): (r: Session)
    ensures !should ==> r == s
    ensures should ==> r == Signal(s)
  {
    if should then Signal(s) else s
  }

  /** What reaches the list once it is on screen: a scroll, or the launched fetch finishing. */
  datatype UiEvent = Scrolled(lastVisible: Option<int>) | Completed(outcome: FetchOutcome)

  /** The fetch completions among some UI events, as feed events. */
  function Completions(ui: seq<UiEvent>): seq<Event>
  {
    if ui == [] then []
    else (if ui[0].Completed? then [Finish(ui[0].outcome)] else []) + Completions(ui[1..])
  }

  /**
   * The list as written. The key-less `remember { derivedStateOf { … } }`
   * captures the `jobs.size` and `isLoading` that `JobsContent` was first
   * composed with (`jobCount`, `isLoading`) and only re-reads the scroll
   * state; `key` is the value the `LaunchedEffect` last ran with.
   */
  datatype StaleList = StaleList(session: Session, jobCount: int, isLoading: bool, key: bool)

  /** First composition: the lambda captures the current state and the effect runs once. */
  function EnterStale(s: Session, lastVisible: Option<int>): (r: StaleList)
    ensures r.jobCount == |s.feed.state.jobs| && r.isLoading == s.feed.state.isLoading
    ensures r.key == ShouldLoadMore(lastVisible, |s.feed.state.jobs|, s.feed.state.isLoading)
    ensures r.session == LoadMoreEffect(r.key, s)
    ensures !r.key ==> r.session == s
  {
    var key := ShouldLoadMore(lastVisible, |s.feed.state.jobs|, s.feed.state.isLoading);
    StaleList(LoadMoreEffect(key, s), |s.feed.state.jobs|, s.feed.state.isLoading, key)
  }

  /**
   * One UI event on the list as written: a completion changes no state the
   * lambda reads; a scroll re-evaluates it, and the effect restarts only when
   * its value changed.
   */
  function StepStale(l: StaleList, e: UiEvent): (r: StaleList)
    ensures r.jobCount == l.jobCount && r.isLoading == l.isLoading
    ensures e.Completed? ==> r.key == l.key && r.session == Resume(l.session, e.outcome)
    ensures e.Scrolled? ==> r.key == ShouldLoadMore(e.lastVisible, l.jobCount, l.isLoading)
    ensures e.Scrolled? && r.key == l.key ==> r.session == l.session
    ensures e.Scrolled? && r.key != l.key ==> r.session == LoadMoreEffect(r.key, l.session)
  {
    match e
    case Completed(outcome) => l.(session := Resume(l.session, outcome))
    case Scrolled(lastVisible) =>
      var should := ShouldLoadMore(lastVisible, l.jobCount, l.isLoading);
      if should == l.key then l
      else l.(session := LoadMoreEffect(should, l.session), key := should)
  }

  function RunStale(l: StaleList, ui: seq<UiEvent>): StaleList
    decreases |ui|
  {
    if ui == [] then l else RunStale(StepStale(l, ui[0]), ui[1..])
  }

  /** A run whose first event is a completion continues from the resumed session. */
  lemma RunFinish(s: Session, outcome: FetchOutcome, rest: seq<Event>)
    ensures Run(s, [Finish(outcome)] + rest) == Run(Resume(s, outcome), rest)
  {
  }

  /**
   * A list composed while a fetch was running never asks for more: whatever
   * the user scrolls, the feed only sees the completions.
   */
  lemma {:induction false} StaleListNeverLoads(l: StaleList, ui: seq<UiEvent>)
    requires l.isLoading && !l.key
    ensures RunStale(l, ui).session == Run(l.session, Completions(ui))
    ensures !RunStale(l, ui).key
    decreases |ui|
  {
    if ui != [] {
      var t := StepStale(l, ui[0]);
      StaleListNeverLoads(t, ui[1..]);
      if ui[0].Completed? {
        assert Completions(ui) == [Finish(ui[0].outcome)] + Completions(ui[1..]);
        RunFinish(l.session, ui[0].outcome, Completions(ui[1..]));
      } else {
        assert Completions(ui) == Completions(ui[1..]);
      }
    }
  }

  /**
   * On the first visit the list is composed for a new view model, which is
   * already loading page 1: no scroll ever calls `loadJobs`, so only page 1
   * is ever requested by this screen.
   */
  lemma FirstVisitNeverLoadsMore(lastVisible: Option<int>, ui: seq<UiEvent>)
    ensures RunStale(EnterStale(Start, lastVisible), ui).session == Run(Start, Completions(ui))
    ensures forall k :: 0 <= k < |RunStale(EnterStale(Start, lastVisible), ui).session.inFlight| ==>
      RunStale(EnterStale(Start, lastVisible), ui).session.inFlight[k] == 1
  {
    StartInv();
    StaleListNeverLoads(EnterStale(Start, lastVisible), ui);
    CompletionsOnlyFinish(ui);
    OnlyFirstPage(Start, Completions(ui));
  }

  lemma {:induction false} CompletionsOnlyFinish(ui: seq<UiEvent>)
    ensures forall k :: 0 <= k < |Completions(ui)| ==> Completions(ui)[k].Finish?
    decreases |ui|
  {
    if ui != [] {
      CompletionsOnlyFinish(ui[1..]);
    }
  }

  /** Without `loadJobs` calls, no fetch other than those already in flight is launched. */
  lemma {:induction false} OnlyFirstPage(s: Session, events: seq<Event>)
    requires forall k :: 0 <= k < |events| ==> events[k].Finish?
    requires forall k :: 0 <= k < |s.inFlight| ==> s.inFlight[k] == 1
    ensures forall k :: 0 <= k < |Run(s, events).inFlight| ==> Run(s, events).inFlight[k] == 1
    decreases |events|
  {
    if events != [] {
      var t := Step(s, events[0]);
      assert forall k :: 0 <= k < |t.inFlight| ==> t.inFlight[k] == s.inFlight[k + 1];
      OnlyFirstPage(t, events[1..]);
    }
  }

  /**
   * The list as intended: `shouldLoadMore` is derived from the current
   * `jobs` and `isLoading` (for instance `remember(jobs.size, isLoading)`),
   * so it is re-evaluated on every state change as well as on scrolls.
   */
  datatype LiveList = LiveList(session: Session, lastVisible: Option<int>, key: bool)

  function Wanted(l: LiveList): bool
  {
    ShouldLoadMore(l.lastVisible, |l.session.feed.state.jobs|, l.session.feed.state.isLoading)
  }

  /**
   * `shouldLoadMore` is re-evaluated; when it changed the effect restarts,
   * and a launched fetch makes it re-evaluate once more (to false).
   */
  function Settle(l: LiveList): LiveList
  {
    var should := Wanted(l);
    if should == l.key then l
    else
      var fired := l.(session := LoadMoreEffect(should, l.session));
      fired.(key := Wanted(fired))
  }

  function EnterLive(s: Session, lastVisible: Option<int>): LiveList
  {
    Settle(LiveList(s, lastVisible, false))
  }

  function StepLive(l: LiveList, e: UiEvent): LiveList
  {
    match e
    case Scrolled(lastVisible) => Settle(l.(lastVisible := lastVisible))
    case Completed(outcome) => Settle(l.(session := Resume(l.session, outcome)))
  }

  function RunLive(l: LiveList, ui: seq<UiEvent>): LiveList
    decreases |ui|
  {
    if ui == [] then l else RunLive(StepLive(l, ui[0]), ui[1..])
  }

  /**
   * The intended list between events: the session invariant holds, the
   * effect last ran with the current value of `shouldLoadMore`, and it can
   * stay true only once the feed has ended.
   */
  ghost predicate LiveInv(l: LiveList)
  {
    Inv(l.session) && l.key == Wanted(l) && (l.key ==> !l.session.feed.hasMorePages)
  }

  lemma SettleInv(l: LiveList)
    requires Inv(l.session) && (l.key ==> !l.session.feed.hasMorePages)
    ensures LiveInv(Settle(l))
  {
  }

  /** Every intended list reachable from a composed one keeps `LiveInv`. */
  lemma {:induction false} RunLiveInv(l: LiveList, ui: seq<UiEvent>)
    requires LiveInv(l)
    ensures LiveInv(RunLive(l, ui))
    decreases |ui|
  {
    if ui != [] {
      if ui[0].Completed? {
        StepInv(l.session, Finish(ui[0].outcome));
      }
      SettleInv(if ui[0].Scrolled? then l.(lastVisible := ui[0].lastVisible)
                else l.(session := Resume(l.session, ui[0].outcome)));
      RunLiveInv(StepLive(l, ui[0]), ui[1..]);
    }
  }

  /**
   * On the intended list, scrolling to the end of a feed that has not ended
   * while nothing is loading launches exactly one fetch, of the current
   * page; a scroll that does not reach the end launches nothing.
   */
  lemma ScrollLaunchesFetch(l: LiveList, lastVisible: Option<int>)
    requires LiveInv(l)
    ensures var s := l.session;
      var should := ShouldLoadMore(lastVisible, |s.feed.state.jobs|, s.feed.state.isLoading);
      && (should && s.feed.hasMorePages ==> StepLive(l, Scrolled(lastVisible)).session.inFlight == [s.feed.currentPage])
      && (!should ==> StepLive(l, Scrolled(lastVisible)).session == s)
      && LiveInv(StepLive(l, Scrolled(lastVisible)))
  {
  }

  /**
   * The input that tells the two apart: on a first visit page 1 arrives and
   * the user scrolls to its last item. As written nothing happens and page 2
   * is never requested; as intended a fetch of page 2 is launched.
   */
  lemma FirstVisitStallsAfterPage1(page: seq<JobItem>)
    requires |page| > 0
    ensures var ui := [Completed(Fetched(page)), Scrolled(Some(|page| - 1))];
      var asWritten := RunStale(EnterStale(Start, None), ui).session;
      var intended := RunLive(EnterLive(Start, None), ui).session;
      && asWritten.inFlight == [] && asWritten.feed.currentPage == 2 && asWritten.feed.hasMorePages
      && intended.inFlight == [2]
  {
    var ui := [Completed(Fetched(page)), Scrolled(Some(|page| - 1))];
    assert ui[1..] == [Scrolled(Some(|page| - 1))];
    StartInv();
    var w0 := EnterStale(Start, None);
    var w1 := StepStale(w0, ui[0]);
    assert w1.session.feed.currentPage == 2 && w1.session.inFlight == [];
    assert RunStale(w0, ui) == RunStale(w1, ui[1..]);
    assert RunStale(w1, ui[1..]) == StepStale(w1, ui[1]);
    var l0 := EnterLive(Start, None);
    assert l0 == LiveList(Start, None, false);
    var l1 := StepLive(l0, ui[0]);
    assert l1.session.feed.state.jobs == page && l1.session.feed.currentPage == 2;
    assert RunLive(l0, ui) == RunLive(l1, ui[1..]);
    assert RunLive(l1, ui[1..]) == StepLive(l1, ui[1]);
  }

  /** The key under which a card looks up and toggles its favourite: `job.id ?: -1`. */
  function CardKey(item: JobItem): (k: int)
    ensures item.id.Some? ==> k == item.id.value
    ensures item.id.None? ==> k == -1
  {
    OrElse(item.id, -1)
  }

  /** The id a card navigates with: `job.id ?: 0`. */
  function NavigationId(item: JobItem): (k: int)
    ensures item.id.Some? ==> k == item.id.value
    ensures item.id.None? ==> k == 0
  {
    OrElse(item.id, 0)
  }

  /** The route a card click navigates to; a card without id opens job 0. */
  function CardRoute(item: JobItem): (r: string)
    ensures item.id.Some? ==> r == Routes.CreateRoute(item.id.value)
    ensures item.id.None? ==> r == "JobDetail/0"
  {
    Routes.CreateRoute(NavigationId(item))
  }

  /** The favourite key and the navigation id differ exactly for cards without an id. */
  lemma CardKeysDisagreeOnlyWithoutId(item: JobItem)
    ensures CardKey(item) != NavigationId(item) <==> item.id.None?
  {
  }

  /** A card is drawn as a favourite iff its key is among the published ids. */
  predicate IsFavoriteCard(favoriteJobs: set<int>, item: JobItem): (r: bool)
    ensures item.id.Some? ==> (r <==> item.id.value in favoriteJobs)
    ensures item.id.None? ==> (r <==> -1 in favoriteJobs)
  {
    CardKey(item) in favoriteJobs
  }

  /** The row the favourite button of a card hands to `toggleFavorite`. */
  function ToggleEntity(item: JobItem): (e: JobEntity)
    ensures e.id == OrElse(item.id, -1)
    ensures e.title == item.title && e.description == item.description
    ensures e.place == PlaceOf(item) && e.salary == SalaryOf(item)
    ensures e.customLink == item.custom_link
  {
    ItemEntity(item, CardKey(item))
  }

  /**
   * Pressing a card's favourite button flips what the card shows: the store
   * is toggled on the card's key and the published ids are re-read from it.
   */
  lemma ToggleFlipsCard(table: map<int, JobEntity>, item: JobItem)
    ensures IsFavoriteCard(Toggled(table, ToggleEntity(item)).Keys, item) <==> CardKey(item) !in table
    ensures forall other: JobItem :: CardKey(other) != CardKey(item) ==>
      (IsFavoriteCard(Toggled(table, ToggleEntity(item)).Keys, other) <==> CardKey(other) in table)
  {
  }

  /** The texts of a card: fallbacks stand in for missing fields. */
  datatype CardText = CardText(title: string, salary: string, location: string)

  const NoTitle: string := "No Title"
  const NoSalary: string := "No Salary"
  const NoLocation: string := "No Location"

  function CardTexts(item: JobItem): (t: CardText)
    ensures t.title == OrElse(item.title, NoTitle)
    ensures t.salary == OrElse(SalaryOf(item), NoSalary)
    ensures t.location == OrElse(PlaceOf(item), NoLocation)
  {
    CardText(OrElse(item.title, NoTitle), OrElse(SalaryOf(item), NoSalary), OrElse(PlaceOf(item), NoLocation))
  }

  /** A card shows "No Salary" and "No Location" whenever the item has no details. */
  lemma CardWithoutDetails(item: JobItem)
    requires item.primary_details.None?
    ensures CardTexts(item).salary == NoSalary && CardTexts(item).location == NoLocation
  {
  }

  /** The body of the screen: a full-screen spinner, or the list of cards. */
  datatype Body = FullScreenSpinner | JobList(cards: seq<JobItem>, trailingSpinner: bool)

  /** The error banner (shown iff `error != null`) and the body. */
  datatype JobsView = JobsView(errorBanner: bool, body: Body)

  function Render(state: JobsState): (v: JobsView)
    ensures v.errorBanner <==> state.error.Some?
    ensures v.body.FullScreenSpinner? <==> state.jobs == [] && state.isLoading
    ensures v.body.JobList? ==> v.body.cards == state.jobs && (v.body.trailingSpinner <==> state.isLoading)
  {
    JobsView(state.error.Some?,
      if |state.jobs| == 0 && state.isLoading then FullScreenSpinner
      else JobList(state.jobs, state.isLoading))
  }

  /** How many items the list holds (cards plus the trailing spinner); none while the full-screen spinner shows. */
  function ListItemCount(v: JobsView): nat
  {
    match v.body
    case FullScreenSpinner => 0
    case JobList(cards, trailingSpinner) => |cards| + if trailingSpinner then 1 else 0
  }

  /**
   * When page 1 fails, the list is empty, so no item can be visible and the
   * screen never calls `loadJobs` again: only the error banner remains.
   */
  lemma NoRetryAfterFirstPageFails(message: Option<string>, lastVisible: Option<int>)
    requires var s := Run(Start, [Finish(Failed(message))]);
      lastVisible.Some? ==> 0 <= lastVisible.value < ListItemCount(Render(s.feed.state))
    ensures var s := Run(Start, [Finish(Failed(message))]);
      && Render(s.feed.state).errorBanner
      && !ShouldLoadMore(lastVisible, |s.feed.state.jobs|, s.feed.state.isLoading)
      && LoadMoreEffect(ShouldLoadMore(lastVisible, |s.feed.state.jobs|, s.feed.state.isLoading), s) == s
  {
  }

  /** In a valid session some spinner is on screen exactly while a fetch is in flight. */
  lemma SpinnerIffFetching(s: Session)
    requires Inv(s)
    ensures var b := Render(s.feed.state).body;
      (b.FullScreenSpinner? || b.trailingSpinner) <==> s.inFlight != []
  {
  }
}
