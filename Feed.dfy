/**
 * The paginated job feed of `JobsViewModel.loadJobs`
 * (viewModels/JobsViewModel.kt), as pure transitions.
 *
 * `loadJobs` has a synchronous part (the guard and `isLoading = true`) and a
 * launched coroutine (fetch, then append or record the error). Each is one
 * atomic step here: `BeginLoad` and `CompleteLoad`. A `Session` adds the
 * pages of the coroutines that were launched and have not finished yet,
 * which is what "at most one fetch outstanding" is about.
 */
module Feed {
  import opened Options
  import opened JobRecords

  /** The message recorded when the exception has none. */
  const LoadFailedMessage: string := "Failed to load jobs"

  /** The view model's feed fields: `_state`, `currentPage`, `hasMorePages`. */
  datatype FeedState = FeedState(state: JobsState, currentPage: int, hasMorePages: bool)

  /** The field initialisers: empty state, page 1, more pages expected. */
  const Initial := FeedState(EmptyState, 1, true)

  /** The early return of `loadJobs`: a fetch is running or the feed ended. */
  predicate Gated(f: FeedState)
  {
    f.state.isLoading || !f.hasMorePages
  }

  /** The synchronous part of `loadJobs`. */
  function BeginLoad(f: FeedState): (r: FeedState)
    ensures Gated(f) ==> r == f
    ensures !Gated(f) ==> r.state == JobsState(f.state.jobs, true, None)
    ensures r.currentPage == f.currentPage && r.hasMorePages == f.hasMorePages
  {
    if Gated(f) then f
    else f.(state := f.state.(isLoading := true, error := None))
  }

  /** The launched part of `loadJobs`, given what `fetchJobs(currentPage)` produced. */
  function CompleteLoad(f: FeedState, outcome: FetchOutcome): (r: FeedState)
    ensures !r.state.isLoading
    ensures outcome.Fetched? ==>
      && r.state.jobs == f.state.jobs + outcome.results
      && r.state.error == f.state.error
      && r.currentPage == f.currentPage + 1
      && r.hasMorePages == (|outcome.results| > 0)
    ensures outcome.Failed? ==>
      && r.state.jobs == f.state.jobs
      && r.state.error == Some(OrElse(outcome.message, LoadFailedMessage))
      && r.currentPage == f.currentPage
      && r.hasMorePages == f.hasMorePages
  {
    match outcome
    case Fetched(results) =>
      FeedState(f.state.(jobs := f.state.jobs + results, isLoading := false),
                f.currentPage + 1, |results| > 0)
    case Failed(message) =>
      f.(state := f.state.(isLoading := false, error := Some(OrElse(message, LoadFailedMessage))))
  }

  /** The feed plus the pages of launched, unfinished fetches (oldest first). */
  datatype Session = Session(feed: FeedState, inFlight: seq<int>)

  /** What can happen next: the UI calls `loadJobs`, or a launched fetch finishes. */
  datatype Event = LoadMore | Finish(outcome: FetchOutcome)

  /** `loadJobs()` called: either ignored, or a fetch of `currentPage` is launched. */
  function Signal(s: Session): (r: Session)
    ensures Gated(s.feed) ==> r == s
    ensures !Gated(s.feed) ==> r.inFlight == s.inFlight + [s.feed.currentPage]
    ensures r.feed == BeginLoad(s.feed)
  {
    if Gated(s.feed) then s
    else Session(BeginLoad(s.feed), s.inFlight + [s.feed.currentPage])
  }

  /** The oldest launched fetch finishes; without one there is nothing to resume. */
  function Resume(s: Session, outcome: FetchOutcome): (r: Session)
    ensures s.inFlight == [] ==> r == s
    ensures s.inFlight != [] ==> r.inFlight == s.inFlight[1..] && r.feed == CompleteLoad(s.feed, outcome)
  {
    if s.inFlight == [] then s
    else Session(CompleteLoad(s.feed, outcome), s.inFlight[1..])
  }

  function Step(s: Session, e: Event): Session
  {
    match e
    case LoadMore => Signal(s)
    case Finish(outcome) => Resume(s, outcome)
  }

  function Run(s: Session, events: seq<Event>): Session
    decreases |events|
  {
    if events == [] then s else Run(Step(s, events[0]), events[1..])
  }

  /** A new view model: fields initialised, then `init { loadJobs() }`. */
  const Start := Signal(Session(Initial, []))

  /**
   * The session invariant: at most one fetch outstanding, `isLoading` says
   * exactly whether one is, the outstanding fetch is for `currentPage`, and
   * it was launched before the feed ended.
   */
  ghost predicate Inv(s: Session)
  {
    && |s.inFlight| <= 1
    && (|s.inFlight| == 1 <==> s.feed.state.isLoading)
    && (|s.inFlight| == 1 ==> s.feed.hasMorePages)
    && (forall k :: 0 <= k < |s.inFlight| ==> s.inFlight[k] == s.feed.currentPage)
    && s.feed.currentPage >= 1
  }

  lemma StartInv()
    ensures Inv(Start) && Start.inFlight == [1] && Start.feed.state == JobsState([], true, None)
  {
  }

  lemma StepInv(s: Session, e: Event)
    requires Inv(s)
    ensures Inv(Step(s, e))
  {
  }

  /** Every session reachable from a valid one is valid: never two fetches at once. */
  lemma {:induction false} RunInv(s: Session, events: seq<Event>)
    requires Inv(s)
    ensures Inv(Run(s, events))
    ensures |Run(s, events).inFlight| <= 1
    decreases |events|
  {
    if events != [] {
      StepInv(s, events[0]);
      RunInv(Step(s, events[0]), events[1..]);
    }
  }

  /** The result pages of the fetches that finished successfully during a run, in order. */
  function Pages(s: Session, events: seq<Event>): seq<seq<JobItem>>
    decreases |events|
  {
    if events == [] then []
    else
      var e := events[0];
      var here := if e.Finish? && e.outcome.Fetched? && s.inFlight != [] then [e.outcome.results] else [];
      here + Pages(Step(s, e), events[1..])
  }

  /** All items of a list of pages, page after page. */
  function Concat(pages: seq<seq<JobItem>>): seq<JobItem>
  {
    if pages == [] then [] else pages[0] + Concat(pages[1..])
  }

  /**
   * Over any run, `jobs` grows by exactly the pages fetched successfully, in
   * the order they arrived, and `currentPage` counts those pages.
   */
  lemma {:induction false} RunAppendsPages(s: Session, events: seq<Event>)
    ensures Run(s, events).feed.state.jobs == s.feed.state.jobs + Concat(Pages(s, events))
    ensures Run(s, events).feed.currentPage == s.feed.currentPage + |Pages(s, events)|
    decreases |events|
  {
    if events != [] {
      var e, t := events[0], Step(s, events[0]);
      RunAppendsPages(t, events[1..]);
      var rest := Pages(t, events[1..]);
      if e.Finish? && e.outcome.Fetched? && s.inFlight != [] {
        assert Pages(s, events) == [e.outcome.results] + rest;
        assert ([e.outcome.results] + rest)[1..] == rest;
        assert t.feed.state.jobs == s.feed.state.jobs + e.outcome.results;
        assert s.feed.state.jobs + Concat(Pages(s, events))
            == s.feed.state.jobs + e.outcome.results + Concat(rest);
      } else {
        assert Pages(s, events) == rest;
        assert t.feed.state.jobs == s.feed.state.jobs;
      }
    }
  }

  /** `jobs` never shrinks and its existing prefix never changes. */
  lemma JobsOnlyGrow(s: Session, events: seq<Event>)
    ensures |s.feed.state.jobs| <= |Run(s, events).feed.state.jobs|
    ensures Run(s, events).feed.state.jobs[..|s.feed.state.jobs|] == s.feed.state.jobs
  {
    RunAppendsPages(s, events);
  }

  /**
   * The page a view model requests is 1 plus the number of pages fetched
   * successfully since it was created.
   */
  lemma RequestedPageCountsSuccesses(events: seq<Event>)
    ensures Run(Start, events).feed.currentPage == 1 + |Pages(Start, events)|
    ensures forall k :: 0 <= k < |Run(Start, events).inFlight| ==>
              Run(Start, events).inFlight[k] == 1 + |Pages(Start, events)|
  {
    StartInv();
    RunInv(Start, events);
    RunAppendsPages(Start, events);
  }

  /** Once the feed has ended and nothing is in flight, no event changes anything. */
  lemma {:induction false} EndedFeedIsFinal(s: Session, events: seq<Event>)
    requires !s.feed.hasMorePages && s.inFlight == []
    ensures Run(s, events) == s
    decreases |events|
  {
    if events != [] {
      assert Step(s, events[0]) == s;
      EndedFeedIsFinal(s, events[1..]);
    }
  }

  /** After a failure the next `loadJobs` fetches the same page again. */
  lemma FailureRetriesSamePage(s: Session, message: Option<string>)
    requires Inv(s) && s.inFlight != []
    ensures Signal(Resume(s, Failed(message))).inFlight == s.inFlight
    ensures Signal(Resume(s, Failed(message))).feed.state.jobs == s.feed.state.jobs
  {
  }

  /** A page of results arrives, then an empty page: the feed holds that page and has ended. */
  lemma ScenarioTwoPagesThenEnd(a: JobItem, b: JobItem)
    ensures var s := Run(Start, [Finish(Fetched([a, b])), LoadMore, Finish(Fetched([]))]);
      && s.feed.state.jobs == [a, b]
      && !s.feed.hasMorePages && !s.feed.state.isLoading && s.inFlight == []
  {
    var s1 := Step(Start, Finish(Fetched([a, b])));
    assert s1.feed.state.jobs == [a, b] && s1.feed.currentPage == 2;
    var s2 := Step(s1, LoadMore);
    assert s2.inFlight == [2];
    var s3 := Step(s2, Finish(Fetched([])));
    assert s3.feed.state.jobs == [a, b] + [];
    var events := [Finish(Fetched([a, b])), LoadMore, Finish(Fetched([]))];
    assert events[1..] == [LoadMore, Finish(Fetched([]))];
    assert events[1..][1..] == [Finish(Fetched([]))];
    assert Run(s2, [Finish(Fetched([]))]) == Run(s3, []);
    assert Run(Start, events) == s3;
  }

  /** Page 1 fails: the error is recorded, nothing was added, and page 1 is asked for again. */
  lemma ScenarioFirstPageFails()
    ensures var s := Run(Start, [Finish(Failed(None))]);
      && s.feed.state == JobsState([], false, Some(LoadFailedMessage))
      && Signal(s).inFlight == [1]
  {
    assert Run(Start, [Finish(Failed(None))]) == Step(Start, Finish(Failed(None)));
  }
}
