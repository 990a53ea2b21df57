/**
 * The row type of the favourites table (model/JobEntity.kt). A Kotlin data
 * class compares field by field, which is exactly Dafny's equality on a
 * datatype; `id` is the primary key of table `favorite_jobs`, the five
 * text columns are nullable.
 */
module Entity {
  import opened Options

  datatype JobEntity = JobEntity(
    id: int,
    title: Option<string>,
    place: Option<string>,
    salary: Option<string>,
    description: Option<string>,
    customLink: Option<string>)
}
