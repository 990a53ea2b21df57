# Jobs app: feed pagination and favourites, modelled in Dafny

This project models the state-handling core of an Android job-listing app. The app shows a paginated feed of jobs from a remote endpoint, and lets the user mark jobs as favourites in a local Room table.

The model covers:

- **Paginated feed.** `JobsViewModel.loadJobs` turns repeated "load more" signals into at most one outstanding page fetch. It appends each page in arrival order and ends the feed on an empty page. On failure it records an error, and the next call retries the same page.
  - Module `Feed` holds the pure transitions. `BeginLoad` is the synchronous guard and the `isLoading = true` step. `CompleteLoad` is the launched coroutine.
  - A `Session` adds the pages of launched, unfinished fetches. Lemmas about runs of events rest on it.
  - The class `ViewModel.JobsViewModel` keeps the source's mutable fields. Its methods are proved against those functions, and it keeps the session invariant.
- **Favourites.** The `favorite_jobs` table is `Dao.JobDao`, a class over a map from primary key to `JobEntity`. It has upsert, delete, exists and list-all operations.
  - `JobsViewModel.ToggleFavorite` deletes or inserts. It then republishes `favoriteJobs` from a fresh read of the store, so afterwards the published set is exactly the store's keys.
  - `LoadFavorites` (the view model's first `init` block) does the same read.
  - `SaveJobToFavorites` upserts without republishing.
- **Screens.** The remaining modules hold the pure decisions of the three screens:
  - `JobsScreen`: when to load more (as written and as intended), card keys and texts, the toggle row, and the spinner and list layout.
  - `BookmarksScreen`: the row-to-item mapping and its round trip with the toggle row, plus one card per stored row.
  - `JobDetail`: lookup by id in page 1, the load state as a small class, display priority, and fallback texts.
- **Routes.** `Routes` holds the route strings and `createRoute`. `Decimal` renders a Kotlin `Int` in a string template.

Nullable Kotlin fields are `Options.Option`, so a missing value stays `None` and is never an empty string. `JobEntity` is a datatype. Its equality is field-by-field, like a Kotlin data class, and `id` is the map key.

Facts about the code that the model keeps:

- `currentPage` is incremented on every successful fetch, including the empty page that ends the feed (`JobsViewModel.kt:97-98`).
- The published favourite set is not always the store's set of ids. So `favoriteJobs == store keys` is proved after `LoadFavorites` and `ToggleFavorite`, not as a class invariant. The set can differ from the store in these ways:
  - At a cold start `favoriteJobs` is empty until the first `init` coroutine has read the store (`JobsViewModel.kt:44-48`), whatever the store holds; the constructor's contract says so.
  - `saveJobToFavorites` writes without republishing.
  - `Bookmarks.kt:32` calls `viewModel()` inside its own navigation destination, so it gets a second `JobsViewModel`, separate from the Jobs screen's (`Jobs.kt:42`). A heart pressed on a saved card republishes only that second instance's `favoriteJobs`, and the Jobs screen's hearts keep the old set. That second instance's `init` also requests page 1 again. In the model each instance is its own `JobsViewModel` object over the one shared `JobDao`.
- The Bookmarks screen reads the saved rows once (`Bookmarks.kt:36-38`) and does not re-read them after a heart is pressed, so an unfavourited card stays listed with an empty heart until the screen is composed again.
- The code does not handle store failures: the DAO calls are suspend Room queries with no `try` around them. The model therefore treats DAO operations as total.
- The list's "load more" trigger reads a stale capture. The key-less `remember { derivedStateOf { … } }` in `Jobs.kt:155-159` keeps the `jobs.size` and `isLoading` that `JobsContent` was first composed with. On a first visit those are 0 and true, so scrolling never calls `loadJobs`. `JobsScreen.StaleList` models the code as written, and `JobsScreen.LiveList` models the evidently intended live reading (see "## Findings").

## Model

| member | source | states |
|---|---|---|
| Dao.IdSet | app/src/main/java/com/abhi/jobsapp/viewModels/JobsViewModel.kt:60 | an id is in `rows.map { it.id }.toSet()` iff some row carries it; there are at most as many ids as rows |
| Dao.Upserted | app/src/main/java/com/abhi/jobsapp/model/JobDao.kt:10-11 | REPLACE upsert: keys gain `e.id`, the row for `e.id` is exactly `e`, all other rows unchanged, one row per id preserved |
| Dao.Deleted | app/src/main/java/com/abhi/jobsapp/model/JobDao.kt:16-17 | only the row with that id disappears (nothing happens if absent), other rows unchanged, one row per id preserved |
| Dao.JobDao.InsertJob | app/src/main/java/com/abhi/jobsapp/model/JobDao.kt:10-11 | the table becomes the upsert of the row; the table stays keyed by id |
| Dao.JobDao.DeleteJobById | app/src/main/java/com/abhi/jobsapp/model/JobDao.kt:16-17 | the table loses exactly the row with that id; stays keyed by id |
| Dao.JobDao.IsJobFavorite | app/src/main/java/com/abhi/jobsapp/model/JobDao.kt:19-20 | true iff a row with that id exists |
| Dao.JobDao.GetAllJobs | app/src/main/java/com/abhi/jobsapp/model/JobDao.kt:13-14 | returns every stored row once and nothing else: ids pairwise distinct, their set equals the table's keys, length equals the table's size, each row is the one stored under its id |
| Feed.BeginLoad | app/src/main/java/com/abhi/jobsapp/viewModels/JobsViewModel.kt:86-88 | no change while loading or after the feed ended; otherwise `isLoading` true and `error` null with jobs, page and more-pages flag unchanged |
| Feed.CompleteLoad | app/src/main/java/com/abhi/jobsapp/viewModels/JobsViewModel.kt:92-104 | `isLoading` becomes false; on success jobs = old jobs followed by the page, page + 1, more pages iff the page was non-empty; on failure jobs, page and flag unchanged and error = message or "Failed to load jobs" |
| Feed.Signal | app/src/main/java/com/abhi/jobsapp/viewModels/JobsViewModel.kt:85-92 | a gated call changes nothing; otherwise exactly one fetch, of `currentPage`, is launched |
| Feed.Resume | app/src/main/java/com/abhi/jobsapp/viewModels/JobsViewModel.kt:90-105 | the oldest launched fetch finishes through `CompleteLoad`; with none launched nothing happens |
| Feed.StartInv | app/src/main/java/com/abhi/jobsapp/viewModels/JobsViewModel.kt:81-88 | a new view model is already fetching page 1 with empty jobs and no error |
| Feed.StepInv | app/src/main/java/com/abhi/jobsapp/viewModels/JobsViewModel.kt:86-105 | each step keeps: at most one fetch in flight, `isLoading` iff one is, it is for `currentPage`, and it was launched before the feed ended |
| Feed.RunInv | app/src/main/java/com/abhi/jobsapp/viewModels/JobsViewModel.kt:86-88 | over any sequence of calls and completions, at most one fetch is ever outstanding |
| Feed.RunAppendsPages | app/src/main/java/com/abhi/jobsapp/viewModels/JobsViewModel.kt:92-97 | over any run, jobs grow by exactly the successfully fetched pages in arrival order, and `currentPage` grows by their number |
| Feed.JobsOnlyGrow | app/src/main/java/com/abhi/jobsapp/viewModels/JobsViewModel.kt:94 | `jobs` never shrinks and its existing prefix never changes |
| Feed.RequestedPageCountsSuccesses | app/src/main/java/com/abhi/jobsapp/viewModels/JobsViewModel.kt:92-97 | the current page, and the page of any fetch in flight, is 1 plus the number of successful completions |
| Feed.EndedFeedIsFinal | app/src/main/java/com/abhi/jobsapp/viewModels/JobsViewModel.kt:86-98 | after an empty page (nothing in flight) no further call or event changes anything |
| Feed.FailureRetriesSamePage | app/src/main/java/com/abhi/jobsapp/viewModels/JobsViewModel.kt:99-104 | after a failure the next `loadJobs` fetches the same page again, with jobs unchanged |
| Feed.ScenarioTwoPagesThenEnd | app/src/main/java/com/abhi/jobsapp/viewModels/JobsViewModel.kt:93-98 | page 1 = [A, B], page 2 empty: jobs = [A, B], feed ended, not loading |
| Feed.ScenarioFirstPageFails | app/src/main/java/com/abhi/jobsapp/viewModels/JobsViewModel.kt:99-104 | page 1 fails without message: jobs empty, not loading, error "Failed to load jobs", next call asks for page 1 again |
| ViewModel.ItemEntity | app/src/main/java/com/abhi/jobsapp/viewModels/JobsViewModel.kt:69-76 | the row copies title and description, takes place and salary from `primary_details` (null without details) and `custom_link` as `customLink` |
| ViewModel.Toggled | app/src/main/java/com/abhi/jobsapp/viewModels/JobsViewModel.kt:53-58 | membership of `e.id` flips, an inserted row is exactly `e`, every other id and row is untouched |
| ViewModel.ToggleTwice | app/src/main/java/com/abhi/jobsapp/viewModels/JobsViewModel.kt:51-62 | toggling twice restores the id set; the table itself when the id was absent, otherwise the row is replaced by the new snapshot |
| ViewModel.JobsViewModel.constructor | app/src/main/java/com/abhi/jobsapp/viewModels/JobsViewModel.kt:28-88 | fields at their initialisers, then `loadJobs()`: the session is the start session (loading page 1), no favourites published yet |
| ViewModel.JobsViewModel.LoadJobs | app/src/main/java/com/abhi/jobsapp/viewModels/JobsViewModel.kt:85-90 | new session = `Signal` of the old one; returns the launched page or none; session invariant kept |
| ViewModel.JobsViewModel.CompleteLoad | app/src/main/java/com/abhi/jobsapp/viewModels/JobsViewModel.kt:90-105 | new session = `Resume` of the old one with the fetch outcome; session invariant kept |
| ViewModel.JobsViewModel.LoadFavorites | app/src/main/java/com/abhi/jobsapp/viewModels/JobsViewModel.kt:44-49 | the published set becomes exactly the store's ids |
| ViewModel.JobsViewModel.ToggleFavorite | app/src/main/java/com/abhi/jobsapp/viewModels/JobsViewModel.kt:51-63 | the store becomes `Toggled` of the old store, and the published set equals the store's ids afterwards |
| ViewModel.JobsViewModel.SaveJobToFavorites | app/src/main/java/com/abhi/jobsapp/viewModels/JobsViewModel.kt:67-79 | no id: store unchanged; otherwise the item's row under its id is upserted |
| JobsScreen.ShouldLoadMore | app/src/main/java/com/abhi/jobsapp/screens/Jobs.kt:155-159 | true only when not loading and an item is visible; then iff the last visible index is at least `jobs.size - 1` |
| JobsScreen.LoadMoreEffect | app/src/main/java/com/abhi/jobsapp/screens/Jobs.kt:162-166 | `loadJobs` is called exactly when `shouldLoadMore` is true |
| JobsScreen.EnterStale | app/src/main/java/com/abhi/jobsapp/screens/Jobs.kt:155-166 | the first composition captures the current job count and loading flag; the effect's first key is `shouldLoadMore` over them and the scroll position, and the effect calls `loadJobs` iff that key is true |
| JobsScreen.StepStale | app/src/main/java/com/abhi/jobsapp/screens/Jobs.kt:155-166 | as written, the captured count and flag never change; a completion never restarts the effect; a scroll re-evaluates `shouldLoadMore` over the captured values; if it is unchanged nothing happens, if it flipped the effect restarts and calls `loadJobs` iff it became true |
| JobsScreen.IsFavoriteCard | app/src/main/java/com/abhi/jobsapp/screens/Jobs.kt:175-177 | a card shows as favourite iff its key (id or -1) is in the published set |
| JobsScreen.StaleListNeverLoads | app/src/main/java/com/abhi/jobsapp/screens/Jobs.kt:155-166 | a list composed while loading never calls `loadJobs`: after any scrolls and completions the feed equals the completions alone applied to it |
| JobsScreen.FirstVisitNeverLoadsMore | app/src/main/java/com/abhi/jobsapp/screens/Jobs.kt:155-166 | on a first visit (new view model, page 1 loading) scrolling never requests a page: the only page ever in flight is page 1 |
| JobsScreen.OnlyFirstPage | app/src/main/java/com/abhi/jobsapp/screens/Jobs.kt:155-166 | without `loadJobs` calls, the only fetch that can be in flight is the page-1 fetch launched by `init` |
| JobsScreen.RunLiveInv | app/src/main/java/com/abhi/jobsapp/screens/Jobs.kt:155-166 | on the intended list, at most one fetch is outstanding and the effect's key is always the current `shouldLoadMore`, true only once the feed has ended |
| JobsScreen.ScrollLaunchesFetch | app/src/main/java/com/abhi/jobsapp/screens/Jobs.kt:155-166 | on the intended list, scrolling to the end of an unended feed while idle launches exactly one fetch, of the current page; a scroll short of the end changes nothing |
| JobsScreen.FirstVisitStallsAfterPage1 | app/src/main/java/com/abhi/jobsapp/screens/Jobs.kt:155-166 | page 1 arrives and the user scrolls to its last item: as written nothing is in flight and page 2 is never asked for; as intended page 2 is fetched |
| JobsScreen.NoRetryAfterFirstPageFails | app/src/main/java/com/abhi/jobsapp/screens/Jobs.kt:118-166 | after page 1 fails no list item can be visible, so the error banner shows and no further load is triggered |
| JobsScreen.CardKey | app/src/main/java/com/abhi/jobsapp/screens/Jobs.kt:176 | favourite key is the id, or -1 without id |
| JobsScreen.NavigationId | app/src/main/java/com/abhi/jobsapp/screens/Jobs.kt:131 | navigation id is the id, or 0 without id |
| JobsScreen.CardRoute | app/src/main/java/com/abhi/jobsapp/screens/Jobs.kt:50-52 | a click opens the detail route of the id, or "JobDetail/0" without id |
| JobsScreen.CardKeysDisagreeOnlyWithoutId | app/src/main/java/com/abhi/jobsapp/screens/Jobs.kt:131-176 | favourite key and navigation id differ iff the item has no id |
| JobsScreen.ToggleEntity | app/src/main/java/com/abhi/jobsapp/screens/Jobs.kt:217-226 | the toggled row has id = the item's id or -1, the item's title, description and `custom_link`, and place and salary from its details (null without details) |
| JobsScreen.ToggleFlipsCard | app/src/main/java/com/abhi/jobsapp/screens/Jobs.kt:175-226 | after a toggle the card shows as favourite iff its key was not stored; cards with other keys are unaffected |
| JobsScreen.CardTexts | app/src/main/java/com/abhi/jobsapp/screens/Jobs.kt:197-269 | title, salary and place, or "No Title", "No Salary", "No Location" when null |
| JobsScreen.CardWithoutDetails | app/src/main/java/com/abhi/jobsapp/screens/Jobs.kt:203-269 | without details a card shows "No Salary" and "No Location" |
| JobsScreen.Render | app/src/main/java/com/abhi/jobsapp/screens/Jobs.kt:71-152 | error banner iff error; full-screen spinner iff no jobs and loading; otherwise the list of all jobs with a trailing spinner iff loading |
| JobsScreen.SpinnerIffFetching | app/src/main/java/com/abhi/jobsapp/screens/Jobs.kt:118-150 | in a valid session a spinner is on screen iff a fetch is in flight |
| BookmarksScreen.SavedItem | app/src/main/java/com/abhi/jobsapp/screens/Bookmarks.kt:46-55 | copies id, title, description, `customLink`; details always present with place and salary; no requirements |
| BookmarksScreen.SavedItemRoundTrip | app/src/main/java/com/abhi/jobsapp/screens/Bookmarks.kt:46-55 | a saved card's toggle row is the original row, and its key is the row's id |
| BookmarksScreen.ItemRoundTrip | app/src/main/java/com/abhi/jobsapp/screens/Bookmarks.kt:46-55 | an item comes back unchanged through a row iff it has an id, details and no requirements |
| BookmarksScreen.SavedCards | app/src/main/java/com/abhi/jobsapp/screens/Bookmarks.kt:44-59 | one card per row, in row order, each the row's item |
| BookmarksScreen.ShowSaved | app/src/main/java/com/abhi/jobsapp/screens/Bookmarks.kt:36-59 | one card per stored row: as many cards as rows, distinct keys, each card built from the row stored under its key, and every stored row's card is among them |
| BookmarksScreen.SavedCardsAreFavorites | app/src/main/java/com/abhi/jobsapp/screens/Bookmarks.kt:56-59 | when the published set equals the rows' ids, every saved card shows as a favourite |
| BookmarksScreen.UnfavoriteFromBookmarks | app/src/main/java/com/abhi/jobsapp/screens/Bookmarks.kt:56-59 | the heart on a saved card deletes exactly that row |
| JobDetail.FirstWithId | app/src/main/java/com/abhi/jobsapp/screens/JobDetailScreen.kt:231 | none iff no item has the id; otherwise an item with the id with no earlier item carrying it |
| JobDetail.FetchJobDetails | app/src/main/java/com/abhi/jobsapp/screens/JobDetailScreen.kt:219-233 | request failure propagates; otherwise the first match, or a throw with "Job with ID <id> not found"; a found job has the id |
| JobDetail.AfterLoad | app/src/main/java/com/abhi/jobsapp/screens/JobDetailScreen.kt:42-56 | not loading afterwards; found: job set, no error; thrown: job kept, error = message or "Failed to load job details" |
| JobDetail.Show | app/src/main/java/com/abhi/jobsapp/screens/JobDetailScreen.kt:64-86 | spinner iff loading, then "Error: " + error, then the job, otherwise not found |
| JobDetail.DetailScreen.constructor | app/src/main/java/com/abhi/jobsapp/screens/JobDetailScreen.kt:38-40 | no job, loading, no error |
| JobDetail.DetailScreen.Load | app/src/main/java/com/abhi/jobsapp/screens/JobDetailScreen.kt:42-56 | the state after the effect is `AfterLoad` of the old state and the lookup |
| JobDetail.ShownAfterLoad | app/src/main/java/com/abhi/jobsapp/screens/JobDetailScreen.kt:42-86 | after a load the screen shows the first match, the not-found error or the request's error; never the spinner or "No job details found" |
| JobDetail.Bullets | app/src/main/java/com/abhi/jobsapp/screens/JobDetailScreen.kt:174-176 | one "• " bullet per requirement, in order |
| JobDetail.DetailTexts | app/src/main/java/com/abhi/jobsapp/screens/JobDetailScreen.kt:103-176 | title/place/salary/description or "No Title", "No Location", "Salary: Not specified", "No description available"; bullets only when requirements are present |
| Routes.RoutesDistinct | app/src/main/java/com/abhi/jobsapp/navigation/Routes.kt:4-7 | the four route strings are pairwise distinct |
| Routes.CreateRoute | app/src/main/java/com/abhi/jobsapp/navigation/Routes.kt:8 | the route starts with "JobDetail/" and has something after it |
| Routes.CreateRouteFillsTemplate | app/src/main/java/com/abhi/jobsapp/navigation/Routes.kt:7-8 | `createRoute(id)` is the template with "{jobId}" replaced by the decimal rendering of `id` |
| Routes.CreateRouteInjective | app/src/main/java/com/abhi/jobsapp/navigation/Routes.kt:7-8 | distinct ids give distinct routes, and none equals a fixed route or the template |
| Decimal.IntToString | app/src/main/java/com/abhi/jobsapp/navigation/Routes.kt:8 | non-empty; starts with "-" iff negative; otherwise all digits |
| Decimal.IntToStringInjective | app/src/main/java/com/abhi/jobsapp/navigation/Routes.kt:8 | two ids render the same iff they are equal (via parsing back) |

## Findings

| source | as written | input that shows it | evidently intended | confidence | as-written member | corrected member |
|---|---|---|---|---|---|---|
| app/src/main/java/com/abhi/jobsapp/screens/Jobs.kt:155-159 | `remember { derivedStateOf { … } }` has no keys, so the lambda keeps the `jobs.size` and `isLoading` of the first composition (0 and true on a first visit), and `shouldLoadMore` stays false | first visit; page 1 returns 10 items; the user scrolls to item 9 | `shouldLoadMore` reads the current `jobs.size` and `isLoading`, and page 2 is requested | high (not executed) | JobsScreen.FirstVisitNeverLoadsMore | JobsScreen.ScrollLaunchesFetch |

## Left out

- Network and JSON are not modelled: the Ktor client, the URLs and JSON decoding (`fetchJobs`, and the HTTP part of `fetchJobDetails`). A request's outcome is an input value, `FetchOutcome`: the decoded `results`, or a failure with an optional message.
- The process-wide `JobsDatabase` handle and the Room builder are not modelled. The store is one `JobDao` object handed to the view model. The view model's two DAO handles and the Bookmarks screen's handle address the same table, so they are that one object.
- Coroutine scheduling is not modelled. Each launched block is one atomic step after its synchronous prefix. Interleavings are left out, for example a toggle racing the initial favourites load, or the detail effect being restarted mid-flight.
- Storage exceptions: the code does not handle store failures, and an exception escapes the launched coroutine. The model treats DAO operations as total.
- JobsScreen.LoadMoreEffect: models one run of the effect body. When it runs (only when its key changes) is modelled by `StepStale` and `Settle`.
- Compose layout, colours, icons and fixed texts ("Unknown Company", "0 vacancies", "Work from home", the error banner's wording) are not modelled. Scroll state is reduced to the index of the last visible item.
- `NavGraph` and the bottom bar are not modelled, nor the navigation library's parsing of `{jobId}` out of a route.
- Dao.JobDao.GetAllJobs: does not fix the order of the rows, because the query has no ORDER BY. Any order satisfies its contract.
- Feed.CompleteLoad: `currentPage` and ids are unbounded integers. A Kotlin `Int` would wrap past 2^31 - 1 after two billion pages; that is not modelled.
- The duplicate `JobItem` and `PrimaryDetails` declarations in screens/JobDetailScreen.kt are field-identical to the view model's, and are modelled once.
