/**
 * The records declared in viewModels/JobsViewModel.kt: the feed items as the
 * remote endpoint delivers them, and the observable state of the job feed.
 * (screens/JobDetailScreen.kt declares field-identical copies of JobItem and
 * PrimaryDetails; they are these.)
 */
module JobRecords {
  import opened Options

  datatype PrimaryDetails = PrimaryDetails(Place: Option<string>, Salary: Option<string>)

  datatype JobItem = JobItem(
    id: Option<int>,
    title: Option<string>,
    primary_details: Option<PrimaryDetails>,
    description: Option<string>,
    requirements: Option<seq<string>>,
    custom_link: Option<string>)

  /**
   * What one page request to the remote endpoint produced: the `results` of
   * the decoded `JobResponse`, or an exception with its (nullable) message.
   * The HTTP client and the JSON decoder are not modelled; this value is
   * their outcome.
   */
  datatype FetchOutcome = Fetched(results: seq<JobItem>) | Failed(message: Option<string>)

  /** `JobsState`: the feed's public state. */
  datatype JobsState = JobsState(jobs: seq<JobItem>, isLoading: bool, error: Option<string>)

  /** The defaults of `JobsState()`. */
  const EmptyState := JobsState([], false, None)

  /** `job.primary_details?.Place` */
  function PlaceOf(item: JobItem): (r: Option<string>)
    ensures item.primary_details.None? ==> r.None?
    ensures item.primary_details.Some? ==> r == item.primary_details.value.Place
  {
    match item.primary_details
    case None => None
    case Some(d) => d.Place
  }

  /** `job.primary_details?.Salary` */
  function SalaryOf(item: JobItem): (r: Option<string>)
    ensures item.primary_details.None? ==> r.None?
    ensures item.primary_details.Some? ==> r == item.primary_details.value.Salary
  {
    match item.primary_details
    case None => None
    case Some(d) => d.Salary
  }
}
