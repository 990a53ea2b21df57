/**
 * The saved-jobs screen (screens/Bookmarks.kt): the stored rows read once
 * from the DAO, each turned back into a feed item and shown as a job card.
 */
module BookmarksScreen {
  import opened Options
  import opened Entity
  import opened JobRecords
  import opened Dao
  import opened ViewModel
  import opened JobsScreen

  /** The item built from a stored row: details always present, no requirements. */
  function SavedItem(e: JobEntity): (item: JobItem)
    ensures item.id == Some(e.id) && item.title == e.title && item.description == e.description
    ensures item.custom_link == e.customLink && item.requirements.None?
    ensures item.primary_details == Some(PrimaryDetails(e.place, e.salary))
  {
    JobItem(Some(e.id), e.title, Some(PrimaryDetails(e.place, e.salary)), e.description, None, e.customLink)
  }

  /** A saved card toggles back exactly the row it was built from. */
  lemma SavedItemRoundTrip(e: JobEntity)
    ensures ToggleEntity(SavedItem(e)) == e
    ensures CardKey(SavedItem(e)) == e.id
  {
  }

  /**
   * The other direction: an item survives the trip through a stored row iff
   * it has an id, details and no requirements. A row keeps no requirements,
   * turns a missing id into -1, and cannot tell missing details from details
   * whose two fields are null.
   */
  lemma ItemRoundTrip(item: JobItem)
    ensures SavedItem(ToggleEntity(item)) == item <==>
      item.id.Some? && item.primary_details.Some? && item.requirements.None?
  {
  }

  /** One card per saved row, in the order the DAO returned them. */
  function SavedCards(rows: seq<JobEntity>): (cards: seq<JobItem>)
    ensures |cards| == |rows|
    ensures forall i :: 0 <= i < |rows| ==> cards[i] == SavedItem(rows[i])
  {
    if rows == [] then [] else [SavedItem(rows[0])] + SavedCards(rows[1..])
  }

  /** Each saved card is keyed by the id of its row. */
  lemma SavedCardKeys(rows: seq<JobEntity>)
    ensures forall i :: 0 <= i < |rows| ==> CardKey(SavedCards(rows)[i]) == rows[i].id
  {
    forall i | 0 <= i < |rows| ensures CardKey(SavedCards(rows)[i]) == rows[i].id {
      SavedItemRoundTrip(rows[i]);
    }
  }

  /** Every row of a complete listing of a table has its card among the saved cards. */
  lemma EveryRowHasCard(rows: seq<JobEntity>, table: map<int, JobEntity>)
    requires RowsOf(rows, table) && IdSet(rows) == table.Keys
    ensures forall id :: id in table ==> SavedItem(table[id]) in SavedCards(rows)
  {
    var cards := SavedCards(rows);
    forall id | id in table ensures SavedItem(table[id]) in cards {
      var i :| 0 <= i < |rows| && rows[i].id == id;
      assert cards[i] == SavedItem(table[id]);
    }
  }

  /** The cards of a complete listing of a table: one per row, keyed and built by that row. */
  lemma CardsOfListing(rows: seq<JobEntity>, table: map<int, JobEntity>)
    requires RowsOf(rows, table) && DistinctIds(rows) && IdSet(rows) == table.Keys
    ensures var cards := SavedCards(rows);
      && (forall i :: 0 <= i < |cards| ==>
            CardKey(cards[i]) in table && cards[i] == SavedItem(table[CardKey(cards[i])]))
      && (forall i, j :: 0 <= i < j < |cards| ==> CardKey(cards[i]) != CardKey(cards[j]))
      && (forall id :: id in table ==> SavedItem(table[id]) in cards)
  {
    SavedCardKeys(rows);
    EveryRowHasCard(rows, table);
  }

  /**
   * The screen's `LaunchedEffect`: `savedJobs = getAllJobs()`, then one card
   * per row. Every stored row gets exactly one card, built from that row.
   */
  method ShowSaved(dao: JobDao) returns (cards: seq<JobItem>)
    requires dao.Valid()
    ensures |cards| == |dao.table|
    ensures forall i :: 0 <= i < |cards| ==>
      CardKey(cards[i]) in dao.table && cards[i] == SavedItem(dao.table[CardKey(cards[i])])
    ensures forall i, j :: 0 <= i < j < |cards| ==> CardKey(cards[i]) != CardKey(cards[j])
    ensures forall id :: id in dao.table ==> SavedItem(dao.table[id]) in cards
  {
    var savedJobs := dao.GetAllJobs();
    CardsOfListing(savedJobs, dao.table);
    cards := SavedCards(savedJobs);
  }

  /** With the published set in step with the store, every saved card shows as a favourite. */
  lemma SavedCardsAreFavorites(rows: seq<JobEntity>, favoriteJobs: set<int>)
    requires favoriteJobs == IdSet(rows)
    ensures forall i :: 0 <= i < |SavedCards(rows)| ==> IsFavoriteCard(favoriteJobs, SavedCards(rows)[i])
  {
    forall i | 0 <= i < |rows| ensures IsFavoriteCard(favoriteJobs, SavedCards(rows)[i]) {
      SavedItemRoundTrip(rows[i]);
    }
  }

  /** Pressing the heart on a saved card deletes exactly that card's row. */
  lemma UnfavoriteFromBookmarks(table: map<int, JobEntity>, e: JobEntity)
    requires e.id in table && table[e.id] == e
    ensures Toggled(table, ToggleEntity(SavedItem(e))) == table - {e.id}
  {
  }
}
