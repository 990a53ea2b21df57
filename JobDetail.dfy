/**
 * The job detail screen (screens/JobDetailScreen.kt): looking a job up by
 * id in the first page of the feed, the load state the screen keeps, which
 * of spinner, error, content or "not found" it shows, and the content texts.
 */
module JobDetail {
  import opened Options
  import opened JobRecords
  import Decimal

  /** `firstOrNull { it.id == jobId }`: the first item carrying that id. */
  function FirstWithId(results: seq<JobItem>, jobId: int): (r: Option<JobItem>)
    ensures r.None? <==> forall i :: 0 <= i < |results| ==> results[i].id != Some(jobId)
    ensures r.Some? ==>
      exists i :: 0 <= i < |results| && results[i] == r.value && results[i].id == Some(jobId) &&
        forall k :: 0 <= k < i ==> results[k].id != Some(jobId)
  {
    if results == [] then None
    else if results[0].id == Some(jobId) then Some(results[0])
    else
      var r := FirstWithId(results[1..], jobId);
      assert forall i :: 1 <= i < |results| ==> results[i] == results[1..][i - 1];
      r
  }

  /** The exception message when no item of the page carries the id. */
  function NotFoundMessage(jobId: int): string
  {
    "Job with ID " + Decimal.IntToString(jobId) + " not found"
  }

  /** What `fetchJobDetails` does: return the job, or throw with an optional message. */
  datatype Lookup = Found(job: JobItem) | Thrown(message: Option<string>)

  /**
   * `fetchJobDetails(jobId)` given what the request for page 1 produced:
   * the first match, the not-found exception, or the request's own failure.
   */
  function FetchJobDetails(page1: FetchOutcome, jobId: int): (r: Lookup)
    ensures page1.Failed? ==> r == Thrown(page1.message)
    ensures page1.Fetched? && FirstWithId(page1.results, jobId).Some? ==>
      r == Found(FirstWithId(page1.results, jobId).value)
    ensures page1.Fetched? && FirstWithId(page1.results, jobId).None? ==>
      r == Thrown(Some(NotFoundMessage(jobId)))
    ensures r.Found? ==> r.job.id == Some(jobId)
  {
    match page1
    case Failed(message) => Thrown(message)
    case Fetched(results) =>
      match FirstWithId(results, jobId)
      case Some(job) => Found(job)
      case None => Thrown(Some(NotFoundMessage(jobId)))
  }

  /** The message recorded when the exception has none. */
  const DetailFailedMessage: string := "Failed to load job details"

  /** The screen's three remembered variables. */
  datatype DetailState = DetailState(job: Option<JobItem>, isLoading: bool, error: Option<string>)

  /** `remember { mutableStateOf(...) }`: no job, loading, no error. */
  const InitialDetail := DetailState(None, true, None)

  /** The `LaunchedEffect` from start to `finally`, given what the lookup did. */
  function AfterLoad(d: DetailState, lookup: Lookup): (r: DetailState)
    ensures !r.isLoading
    ensures lookup.Found? ==> r.job == Some(lookup.job) && r.error.None?
    ensures lookup.Thrown? ==> r.job == d.job && r.error == Some(OrElse(lookup.message, DetailFailedMessage))
  {
    match lookup
    case Found(job) => DetailState(Some(job), false, None)
    case Thrown(message) => DetailState(d.job, false, Some(OrElse(message, DetailFailedMessage)))
  }

  /** What the screen shows, by the priority of its `when`. */
  datatype Display = Spinner | ErrorText(text: string) | Content(job: JobItem) | NotFound

  function Show(d: DetailState): (r: Display)
    ensures r.Spinner? <==> d.isLoading
    ensures r.ErrorText? <==> !d.isLoading && d.error.Some?
    ensures r.ErrorText? ==> r.text == "Error: " + d.error.value
    ensures r.Content? <==> !d.isLoading && d.error.None? && d.job.Some?
    ensures r.Content? ==> r.job == d.job.value
  {
    if d.isLoading then Spinner
    else if d.error.Some? then ErrorText("Error: " + d.error.value)
    else if d.job.Some? then Content(d.job.value)
    else NotFound
  }

  /** The screen's state, updated step by step by its `LaunchedEffect(jobId)`. */
  class DetailScreen {
    var job: Option<JobItem>
    var isLoading: bool
    var error: Option<string>

    ghost function Current(): DetailState
      reads this
    {
      DetailState(job, isLoading, error)
    }

    constructor ()
      ensures Current() == InitialDetail
    {
      job, isLoading, error := None, true, None;
    }

    /** One run of the effect for `jobId`, the request for page 1 having produced `page1`. */
    method Load(jobId: int, page1: FetchOutcome)
      modifies this
      ensures Current() == AfterLoad(old(Current()), FetchJobDetails(page1, jobId))
    {
      isLoading := true;
      error := None;
      var fetched := FetchJobDetails(page1, jobId);
      match fetched {
        case Found(j) =>
          job := Some(j);
        case Thrown(message) =>
          error := Some(OrElse(message, DetailFailedMessage));
      }
      isLoading := false;
    }
  }

  /**
   * After a load the screen shows the first job with the id, the not-found
   * error, or the request's error; never the spinner and never "No job
   * details found".
   */
  lemma ShownAfterLoad(d: DetailState, jobId: int, page1: FetchOutcome)
    ensures var shown := Show(AfterLoad(d, FetchJobDetails(page1, jobId)));
      && (page1.Failed? ==> shown == ErrorText("Error: " + OrElse(page1.message, DetailFailedMessage)))
      && (page1.Fetched? && FirstWithId(page1.results, jobId).Some? ==>
            shown == Content(FirstWithId(page1.results, jobId).value))
      && (page1.Fetched? && FirstWithId(page1.results, jobId).None? ==>
            shown == ErrorText("Error: " + NotFoundMessage(jobId)))
      && !shown.Spinner? && !shown.NotFound?
  {
  }

  /** The content texts; requirements give one bullet each, none when absent. */
  datatype DetailText = DetailText(
    title: string, location: string, salary: string, description: string, bullets: seq<string>)

  const NoTitle: string := "No Title"
  const NoLocation: string := "No Location"
  const SalaryNotSpecified: string := "Not specified"
  const NoDescription: string := "No description available"

  /** `"• $requirement"` for each requirement, in order. */
  function Bullets(requirements: seq<string>): (r: seq<string>)
    ensures |r| == |requirements|
    ensures forall i :: 0 <= i < |r| ==> r[i] == "• " + requirements[i]
  {
    if requirements == [] then []
    else ["• " + requirements[0]] + Bullets(requirements[1..])
  }

  function DetailTexts(job: JobItem): (t: DetailText)
    ensures t.title == OrElse(job.title, NoTitle)
    ensures t.location == OrElse(PlaceOf(job), NoLocation)
    ensures t.salary == "Salary: " + OrElse(SalaryOf(job), SalaryNotSpecified)
    ensures t.description == OrElse(job.description, NoDescription)
    ensures job.requirements.None? ==> t.bullets == []
    ensures job.requirements.Some? ==> t.bullets == Bullets(job.requirements.value)
  {
    DetailText(
      OrElse(job.title, NoTitle),
      OrElse(PlaceOf(job), NoLocation),
      "Salary: " + OrElse(SalaryOf(job), SalaryNotSpecified),
      OrElse(job.description, NoDescription),
      match job.requirements
      case None => []
      case Some(reqs) => Bullets(reqs))
  }
}
