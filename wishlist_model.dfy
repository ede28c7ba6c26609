/**
 * The wishlist document (models/Wishlist.js): a user's saved plants, each
 * with a note and the time it was added.
 */
module WishlistModel {
  import opened Wrappers
  import opened PlantModel

  const MaxNotesLength := 500

  datatype WishlistEntry = WishlistEntry(plantId: PlantId, addedAt: int, notes: string)

  datatype Wishlist = Wishlist(userId: string, plants: seq<WishlistEntry>)

  /** An entry needs a plant reference, and its notes are at most 500 characters. */
  predicate EntryValid(e: WishlistEntry) {
    e.plantId != "" && |e.notes| <= MaxNotesLength
  }

  /** Validation on save: the required user id and every entry's constraints. */
  predicate SchemaValid(w: Wishlist) {
    w.userId != "" && forall k :: 0 <= k < |w.plants| ==> EntryValid(w.plants[k])
  }

  /** An entry as built by the schema: `addedAt` falls back to the creation time `now`. */
  function NewEntry(plantId: PlantId, notes: string, addedAt: Option<int>, now: int): (e: WishlistEntry)
    ensures e.plantId == plantId && e.notes == notes
    ensures addedAt.None? ==> e.addedAt == now
    ensures addedAt.Some? ==> e.addedAt == addedAt.value
  {
    WishlistEntry(plantId, addedAt.GetOr(now), notes)
  }

  /** The plant has an entry. */
  predicate Contains(plants: seq<WishlistEntry>, plantId: string) {
    exists k :: 0 <= k < |plants| && plants[k].plantId == plantId
  }

  /** At most one entry per plant. */
  predicate UniquePlants(plants: seq<WishlistEntry>) {
    forall i, j :: 0 <= i < j < |plants| ==> plants[i].plantId != plants[j].plantId
  }

  /**
   * The `(userId, plants.plantId)` index is not unique, so the schema accepts
   * a wishlist with two entries for one plant: only the add route's duplicate
   * check keeps them apart.
   */
  lemma SchemaAdmitsDuplicates(userId: string, e: WishlistEntry)
    requires userId != "" && EntryValid(e)
    ensures SchemaValid(Wishlist(userId, [e, e])) && !UniquePlants([e, e])
  {
    assert [e, e][0].plantId == [e, e][1].plantId;
  }
}
