/**
 * The Room DAO of model/JobDao.kt over the `favorite_jobs` table. The table
 * is a map from primary key to row; Room's generated code and SQLite are not
 * modelled beyond the effect of each query on that map.
 */
module Dao {
  import opened Entity

  /** The ids of a list of rows, as `rows.map { it.id }.toSet()` computes them. */
  function IdSet(rows: seq<JobEntity>): (r: set<int>)
    ensures forall id :: id in r <==> exists i :: 0 <= i < |rows| && rows[i].id == id
    ensures |r| <= |rows|
  {
    if rows == [] then {}
    else
      var init := rows[..|rows| - 1];
      assert forall i :: 0 <= i < |init| ==> init[i] == rows[i];
      IdSet(init) + {rows[|rows| - 1].id}
  }

  /** Appending a row adds exactly its id. */
  lemma IdSetAppend(rows: seq<JobEntity>, e: JobEntity)
    ensures IdSet(rows + [e]) == IdSet(rows) + {e.id}
  {
    assert (rows + [e])[..|rows|] == rows;
  }

  /** No two rows share a primary key. */
  predicate DistinctIds(rows: seq<JobEntity>)
  {
    forall i, j :: 0 <= i < j < |rows| ==> rows[i].id != rows[j].id
  }

  /** Every listed row is the row the table stores under its id. */
  predicate RowsOf(rows: seq<JobEntity>, table: map<int, JobEntity>)
  {
    forall i :: 0 <= i < |rows| ==> rows[i].id in table && table[rows[i].id] == rows[i]
  }

  /** Appending a row whose id is new keeps the ids distinct. */
  lemma DistinctIdsAppend(rows: seq<JobEntity>, e: JobEntity)
    requires DistinctIds(rows) && e.id !in IdSet(rows)
    ensures DistinctIds(rows + [e])
  {
    var r := rows + [e];
    forall i, j | 0 <= i < j < |r| ensures r[i].id != r[j].id {
      if j == |rows| {
        assert r[i] == rows[i];
      }
    }
  }

  /**
   * One step of listing a table: moving a not yet listed key from `rest` to
   * the end of `rows` keeps the listing exact, duplicate-free and faithful.
   */
  lemma ListingStep(table: map<int, JobEntity>, rows: seq<JobEntity>, rest: set<int>, id: int)
    requires KeyedById(table) && id in rest && rest <= table.Keys
    requires IdSet(rows) == table.Keys - rest && DistinctIds(rows) && RowsOf(rows, table)
    ensures IdSet(rows + [table[id]]) == table.Keys - (rest - {id})
    ensures DistinctIds(rows + [table[id]])
    ensures RowsOf(rows + [table[id]], table)
  {
    IdSetAppend(rows, table[id]);
    DistinctIdsAppend(rows, table[id]);
    assert (table.Keys - rest) + {id} == table.Keys - (rest - {id});
  }

  /** Rows with pairwise distinct ids have as many ids as rows. */
  lemma {:induction false} DistinctIdsCount(rows: seq<JobEntity>)
    requires DistinctIds(rows)
    ensures |IdSet(rows)| == |rows|
  {
    if rows != [] {
      var init := rows[..|rows| - 1];
      assert DistinctIds(init);
      DistinctIdsCount(init);
      assert rows[|rows| - 1].id !in IdSet(init);
    }
  }

  /** A table keyed by primary key: every row is stored under its own id. */
  predicate KeyedById(table: map<int, JobEntity>)
  {
    forall id :: id in table ==> table[id].id == id
  }

  /** `@Insert(onConflict = REPLACE)`: afterwards the row for `e.id` is `e`. */
  function Upserted(table: map<int, JobEntity>, e: JobEntity): (r: map<int, JobEntity>)
    ensures r.Keys == table.Keys + {e.id}
    ensures e.id in r && r[e.id] == e
    ensures forall id :: id in table && id != e.id ==> r[id] == table[id]
    ensures KeyedById(table) ==> KeyedById(r)
  {
    table[e.id := e]
  }

  /** `DELETE FROM favorite_jobs WHERE id = :jobId`: only that row goes. */
  function Deleted(table: map<int, JobEntity>, id: int): (r: map<int, JobEntity>)
    ensures r.Keys == table.Keys - {id}
    ensures id !in r
    ensures forall k :: k in r ==> r[k] == table[k]
    ensures KeyedById(table) ==> KeyedById(r)
  {
    table - {id}
  }

  class JobDao {
    /** The contents of the `favorite_jobs` table, by primary key. */
    var table: map<int, JobEntity>

    ghost predicate Valid()
      reads this
    {
      KeyedById(table)
    }

    /** A freshly created database has an empty table. */
    constructor ()
      ensures Valid() && table == map[]
    {
      table := map[];
    }

    /** `insertJob`: insert, or replace the row with the same id. */
    method InsertJob(job: JobEntity)
      requires Valid()
      modifies this
      ensures Valid()
      ensures table == Upserted(old(table), job)
    {
      table := table[job.id := job];
    }

    /** `deleteJobById`: remove the row with that id, if any. */
    method DeleteJobById(jobId: int)
      requires Valid()
      modifies this
      ensures Valid()
      ensures table == Deleted(old(table), jobId)
    {
      table := table - {jobId};
    }

    /** `isJobFavorite`: `SELECT EXISTS(... WHERE id = :jobId)`. */
    method IsJobFavorite(jobId: int) returns (exists_: bool)
      ensures exists_ <==> jobId in table
    {
      exists_ := jobId in table;
    }

    /**
     * `getAllJobs`: `SELECT * FROM favorite_jobs`. Every stored row once,
     * no other row, ids pairwise distinct. The query has no ORDER BY, so the
     * order is left open: rows are taken out of the table one key at a time.
     */
    method GetAllJobs() returns (rows: seq<JobEntity>)
      requires Valid()
      ensures IdSet(rows) == table.Keys
      ensures DistinctIds(rows)
      ensures |rows| == |table|
      ensures RowsOf(rows, table)
    {
      rows := [];
      var rest := table.Keys;
      while rest != {}
        invariant rest <= table.Keys
        invariant IdSet(rows) == table.Keys - rest
        invariant DistinctIds(rows)
        invariant RowsOf(rows, table)
        decreases rest
      {
        var id :| id in rest;
        ListingStep(table, rows, rest, id);
        rows := rows + [table[id]];
        rest := rest - {id};
      }
      assert table.Keys - rest == table.Keys;
      DistinctIdsCount(rows);
      assert |table| == |table.Keys|;
    }
  }
}
