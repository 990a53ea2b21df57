/**
 * `JobsViewModel` (viewModels/JobsViewModel.kt): the job feed, and the
 * published set of favourite ids kept in step with the DAO.
 */
module ViewModel {
  import opened Options
  import opened Entity
  import opened JobRecords
  import opened Dao
  import opened Feed

  /**
   * The favourites row built from a feed item under the given id:
   * place and salary from `primary_details`, `custom_link` as `customLink`.
   */
  function ItemEntity(item: JobItem, id: int): (e: JobEntity)
    ensures e.id == id && e.title == item.title && e.description == item.description
    ensures e.customLink == item.custom_link
    ensures e.place == PlaceOf(item) && e.salary == SalaryOf(item)
  {
    JobEntity(id, item.title, PlaceOf(item), SalaryOf(item), item.description, item.custom_link)
  }

  /** The store after `toggleFavorite(e)`: delete when `e.id` is stored, else insert `e`. */
  function Toggled(table: map<int, JobEntity>, e: JobEntity): (r: map<int, JobEntity>)
    ensures e.id in r <==> e.id !in table
    ensures e.id in r ==> r[e.id] == e
    ensures forall id :: id != e.id ==> (id in r <==> id in table)
    ensures forall id :: id != e.id && id in r ==> r[id] == table[id]
    ensures KeyedById(table) ==> KeyedById(r)
  {
    if e.id in table then Deleted(table, e.id) else Upserted(table, e)
  }

  /**
   * Toggling twice restores the set of favourite ids. The store itself is
   * restored when the id was absent; when it was present, the row comes back
   * as the new snapshot `e`.
   */
  lemma ToggleTwice(table: map<int, JobEntity>, e: JobEntity)
    ensures Toggled(Toggled(table, e), e).Keys == table.Keys
    ensures e.id !in table ==> Toggled(Toggled(table, e), e) == table
    ensures e.id in table ==> Toggled(Toggled(table, e), e) == table[e.id := e]
  {
  }

  class JobsViewModel {
    /** `_state` */
    var state: JobsState
    var currentPage: int
    var hasMorePages: bool
    /** `_favoriteJobs.value`: the published favourite ids. */
    var favoriteJobs: set<int>
    /** The DAO of the (single) database. */
    const dao: JobDao
    /** Pages of the `loadJobs` coroutines launched and not yet finished. */
    ghost var inFlight: seq<int>

    ghost function Session(): Feed.Session
      reads this
    {
      Feed.Session(FeedState(state, currentPage, hasMorePages), inFlight)
    }

    ghost predicate Valid()
      reads this, dao
    {
      dao.Valid() && Inv(Session())
    }

    /**
     * Construction runs the field initialisers and both `init` blocks. The
     * first launches the favourites load (the separate step `LoadFavorites`);
     * the second calls `loadJobs()`, whose synchronous part runs right away.
     */
    constructor (dao: JobDao)
      requires dao.Valid()
      ensures Valid() && this.dao == dao
      ensures Session() == Start
      ensures favoriteJobs == {}
    {
      this.dao := dao;
      state := EmptyState;
      currentPage := 1;
      hasMorePages := true;
      favoriteJobs := {};
      inFlight := [];
      new;
      StartInv();
      var _ := LoadJobs();
    }

    /**
     * The synchronous part of `loadJobs`. Returns the page of the fetch it
     * launches, or None when the call returned early.
     */
    method LoadJobs() returns (launched: Option<int>)
      requires Valid()
      modifies this`state, this`inFlight
      ensures Valid()
      ensures Session() == Signal(old(Session()))
      ensures launched == if Gated(old(Session()).feed) then None else Some(old(currentPage))
    {
      if state.isLoading || !hasMorePages {
        return None;
      }
      state := state.(isLoading := true, error := None);
      inFlight := inFlight + [currentPage];
      launched := Some(currentPage);
    }

    /** The launched part of `loadJobs`: `fetchJobs(currentPage)` produced `outcome`. */
    method CompleteLoad(outcome: FetchOutcome)
      requires Valid() && inFlight != []
      modifies this`state, this`currentPage, this`hasMorePages, this`inFlight
      ensures Valid()
      ensures Session() == Resume(old(Session()), outcome)
    {
      match outcome {
        case Fetched(results) =>
          state := state.(jobs := state.jobs + results, isLoading := false);
          currentPage := currentPage + 1;
          hasMorePages := |results| > 0;
        case Failed(message) =>
          state := state.(isLoading := false, error := Some(OrElse(message, LoadFailedMessage)));
      }
      inFlight := inFlight[1..];
    }

    /** The first `init` block: publish the ids of the stored favourites. */
    method LoadFavorites()
      requires Valid()
      modifies this`favoriteJobs
      ensures Valid()
      ensures favoriteJobs == dao.table.Keys
    {
      var jobs := dao.GetAllJobs();
      favoriteJobs := IdSet(jobs);
    }

    /**
     * `toggleFavorite`: one store mutation (delete xor insert), then the
     * published set is re-read from the store.
     */
    method ToggleFavorite(job: JobEntity)
      requires Valid()
      modifies dao, this`favoriteJobs
      ensures Valid()
      ensures dao.table == Toggled(old(dao.table), job)
      ensures favoriteJobs == dao.table.Keys
    {
      var isFavorite := dao.IsJobFavorite(job.id);
      if isFavorite {
        dao.DeleteJobById(job.id);
      } else {
        dao.InsertJob(job);
      }
      var updated := dao.GetAllJobs();
      favoriteJobs := IdSet(updated);
    }

    /**
     * `saveJobToFavorites`: an item without id is ignored; otherwise its row
     * is upserted. The published set is not refreshed.
     */
    method SaveJobToFavorites(job: JobItem)
      requires Valid()
      modifies dao
      ensures Valid()
      ensures job.id.None? ==> dao.table == old(dao.table)
      ensures job.id.Some? ==> dao.table == Upserted(old(dao.table), ItemEntity(job, job.id.value))
    {
      if job.id.None? {
        return;
      }
      var entity := ItemEntity(job, job.id.value);
      dao.InsertJob(entity);
    }
  }

  /** A store-backed view model toggled twice on the same job. */
  method ToggleTwiceClient(job: JobEntity)
  {
    var dao := new JobDao();
    var vm := new JobsViewModel(dao);
    vm.ToggleFavorite(job);
    assert vm.favoriteJobs == {job.id} && dao.table == map[job.id := job];
    vm.ToggleFavorite(job);
    assert vm.favoriteJobs == {} && dao.table == map[];
  }
}
