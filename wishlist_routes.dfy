/**
 * The wishlist routes (routes/wishlist.js).  Unlike the cart, a plant that is
 * already saved is refused rather than merged, plant ids must be in canonical
 * ObjectId form, and the count is computed when the wishlist is read.
 */
module WishlistRoutes {
  import opened Wrappers
  import opened Http
  import opened ObjectIds
  import opened PlantModel
  import opened WishlistModel

  // ---------------------------------------------------------------------
  // GET /:userId

  /** A populated entry: the plant's current fields, when it was added and the notes. */
  datatype WishlistItemView = WishlistItemView(plant: PlantSummary, addedAt: int, notes: string)

  datatype WishlistView = WishlistView(plants: seq<WishlistItemView>, totalItems: nat)

  function EntryView(catalog: Catalog, e: WishlistEntry): WishlistItemView
    requires e.plantId in catalog
  {
    WishlistItemView(Summarize(e.plantId, catalog[e.plantId]), e.addedAt, e.notes)
  }

  /** The entries whose plant no longer resolves in the catalog. */
  function DanglingEntries(catalog: Catalog, plants: seq<WishlistEntry>): (r: seq<WishlistEntry>)
    ensures forall x :: x in r <==> x in plants && x.plantId !in catalog
  {
    if plants == [] then []
    else
      var last := plants[|plants| - 1];
      DanglingEntries(catalog, plants[..|plants| - 1]) + (if last.plantId in catalog then [] else [last])
  }

  /**
   * The populate-then-filter of GET: every entry whose plant resolves, in
   * order, joined with the plant; entries whose plant is gone are dropped.
   */
  function HydrateEntries(catalog: Catalog, plants: seq<WishlistEntry>): (r: seq<WishlistItemView>)
    ensures |r| <= |plants|
  {
    if plants == [] then []
    else
      var last := plants[|plants| - 1];
      HydrateEntries(catalog, plants[..|plants| - 1]) + (if last.plantId in catalog then [EntryView(catalog, last)] else [])
  }

  /** GET drops exactly the dangling entries: shown plus dangling is all of them. */
  lemma {:induction false} HydrateEntriesCount(catalog: Catalog, plants: seq<WishlistEntry>)
    ensures |HydrateEntries(catalog, plants)| + |DanglingEntries(catalog, plants)| == |plants|
  {
    if plants != [] {
      HydrateEntriesCount(catalog, plants[..|plants| - 1]);
    }
  }

  /** GET keeps the stored order: hydrating two runs of entries one after the other is hydrating each and concatenating. */
  lemma {:induction false} HydrateEntriesConcat(catalog: Catalog, a: seq<WishlistEntry>, b: seq<WishlistEntry>)
    ensures HydrateEntries(catalog, a + b) == HydrateEntries(catalog, a) + HydrateEntries(catalog, b)
  {
    if b == [] {
      assert a + b == a;
    } else {
      var b' := b[..|b| - 1];
      assert (a + b)[..|a + b| - 1] == a + b';
      HydrateEntriesConcat(catalog, a, b');
    }
  }

  /** A single entry is shown, joined with its plant, exactly when its plant resolves. */
  lemma HydrateEntriesSingleton(catalog: Catalog, e: WishlistEntry)
    ensures HydrateEntries(catalog, [e]) == (if e.plantId in catalog then [EntryView(catalog, e)] else [])
  {
    assert [e][..0] == [];
  }

  /** Every shown entry carries its plant's current catalog fields, and every resolving entry is shown. */
  lemma {:induction false} HydrateShowsResolvingEntries(catalog: Catalog, plants: seq<WishlistEntry>)
    ensures forall k :: 0 <= k < |HydrateEntries(catalog, plants)| ==> IsCurrent(catalog, HydrateEntries(catalog, plants)[k].plant)
    ensures forall i :: 0 <= i < |plants| && plants[i].plantId in catalog ==> EntryView(catalog, plants[i]) in HydrateEntries(catalog, plants)
  {
    if plants != [] {
      var init, last := plants[..|plants| - 1], plants[|plants| - 1];
      HydrateShowsResolvingEntries(catalog, init);
      assert forall i :: 0 <= i < |init| ==> init[i] == plants[i];
      var r0 := HydrateEntries(catalog, init);
      var tail := if last.plantId in catalog then [EntryView(catalog, last)] else [];
      var r := r0 + tail;
      assert HydrateEntries(catalog, plants) == r;
      forall k | 0 <= k < |r|
        ensures IsCurrent(catalog, r[k].plant)
      {
        if k < |r0| {
          assert r[k] == r0[k];
        } else {
          assert r[k] == EntryView(catalog, last);
        }
      }
    }
  }

  // ---------------------------------------------------------------------
  // POST /:userId

  /** The plant a request names, or the status the route answers with instead. */
  datatype Lookup = Found(id: PlantId, plant: Plant) | Refused(status: Status)

  /**
   * The checks of POST, in order: the plant id must be truthy (400), in
   * canonical ObjectId form (400), and name an existing plant (404).
   * Availability is not checked.
   */
  function ResolveForWishlist(plantId: Option<string>, catalog: Catalog): (r: Lookup)
    ensures !TruthyString(plantId) ==> r == Refused(BadRequest)
    ensures TruthyString(plantId) && !IsCanonical(plantId.value) ==> r == Refused(BadRequest)
    ensures TruthyString(plantId) && IsCanonical(plantId.value) && plantId.value !in catalog ==> r == Refused(NotFound)
    ensures r.Found? <==> plantId.Some? && IsCanonical(plantId.value) && plantId.value in catalog
    ensures r.Found? ==> r.id == plantId.value && r.plant == catalog[r.id]
  {
    if !TruthyString(plantId) then Refused(BadRequest)
    else if !IsValidObjectId(plantId.value) then Refused(BadRequest)
    else if plantId.value !in catalog then Refused(NotFound)
    else Found(plantId.value, catalog[plantId.value])
  }

  /** The outcome of POST: 201 with the new count, 400 with `isInWishlist: true`, or another refusal. */
  datatype AddPlantResponse = Added(totalItems: nat, addedItem: string) | AlreadyInWishlist | Rejected(status: Status) {
    function StatusOf(): Status {
      match this
      case Added(_, _) => Created
      case AlreadyInWishlist => BadRequest
      case Rejected(s) => s
    }
  }

  /** `wishlist.plants.find(...)`: whether an entry for the plant exists. */
  method FindEntry(plants: seq<WishlistEntry>, plantId: string) returns (found: bool)
    ensures found <==> Contains(plants, plantId)
  {
    var k := 0;
    while k < |plants|
      invariant 0 <= k <= |plants|
      invariant forall j :: 0 <= j < k ==> plants[j].plantId != plantId
    {
      if plants[k].plantId == plantId {
        return true;
      }
      k := k + 1;
    }
    return false;
  }

  // ---------------------------------------------------------------------
  // DELETE /:userId/:plantId

  /** `plants.filter(item => item.plantId.toString() !== plantId)`. */
  function WithoutEntry(plants: seq<WishlistEntry>, plantId: string): (r: seq<WishlistEntry>)
    ensures |r| <= |plants|
    ensures forall x :: x in r <==> x in plants && x.plantId != plantId
  {
    if plants == [] then []
    else
      var init, last := plants[..|plants| - 1], plants[|plants| - 1];
      if last.plantId == plantId then WithoutEntry(init, plantId) else WithoutEntry(init, plantId) + [last]
  }

  /** The filter keeps the stored order: filtering two runs of entries one after the other is filtering each and concatenating. */
  lemma {:induction false} WithoutEntryConcat(a: seq<WishlistEntry>, b: seq<WishlistEntry>, plantId: string)
    ensures WithoutEntry(a + b, plantId) == WithoutEntry(a, plantId) + WithoutEntry(b, plantId)
  {
    if b == [] {
      assert a + b == a;
    } else {
      var b' := b[..|b| - 1];
      assert (a + b)[..|a + b| - 1] == a + b';
      WithoutEntryConcat(a, b', plantId);
    }
  }

  /** A single entry is kept exactly when it is for another plant. */
  lemma WithoutEntrySingleton(e: WishlistEntry, plantId: string)
    ensures WithoutEntry([e], plantId) == (if e.plantId == plantId then [] else [e])
  {
    assert [e][..0] == [];
  }

  /** The filter keeps every entry exactly when no entry names the plant. */
  lemma {:induction false} WithoutEntryLength(plants: seq<WishlistEntry>, plantId: string)
    ensures |WithoutEntry(plants, plantId)| == |plants| <==> !Contains(plants, plantId)
  {
    if plants != [] {
      var init, last := plants[..|plants| - 1], plants[|plants| - 1];
      WithoutEntryLength(init, plantId);
      assert forall k :: 0 <= k < |init| ==> init[k] == plants[k];
      assert Contains(plants, plantId) <==> Contains(init, plantId) || last.plantId == plantId by {
        if Contains(plants, plantId) && last.plantId != plantId {
          var k :| 0 <= k < |plants| && plants[k].plantId == plantId;
          assert k < |init| && init[k].plantId == plantId;
        }
        if Contains(init, plantId) {
          var k :| 0 <= k < |init| && init[k].plantId == plantId;
          assert plants[k].plantId == plantId;
        }
      }
    }
  }

  /** Removing a plant keeps at most one entry per plant. */
  lemma {:induction false} WithoutEntryUnique(plants: seq<WishlistEntry>, plantId: string)
    requires UniquePlants(plants)
    ensures UniquePlants(WithoutEntry(plants, plantId))
  {
    if plants != [] {
      var init, last := plants[..|plants| - 1], plants[|plants| - 1];
      assert forall k :: 0 <= k < |init| ==> init[k] == plants[k];
      WithoutEntryUnique(init, plantId);
      var r0 := WithoutEntry(init, plantId);
      if last.plantId != plantId {
        assert forall k :: 0 <= k < |r0| ==> r0[k] in init;
        assert forall k :: 0 <= k < |r0| ==> r0[k].plantId != last.plantId;
      }
    }
  }

  /** On a wishlist with one entry per plant, removing a saved plant drops exactly one entry. */
  lemma {:induction false} WithoutEntryDropsOne(plants: seq<WishlistEntry>, plantId: string)
    requires UniquePlants(plants) && Contains(plants, plantId)
    ensures |WithoutEntry(plants, plantId)| == |plants| - 1
  {
    var init, last := plants[..|plants| - 1], plants[|plants| - 1];
    assert forall k :: 0 <= k < |init| ==> init[k] == plants[k];
    if last.plantId == plantId {
      assert !Contains(init, plantId);
      WithoutEntryLength(init, plantId);
    } else {
      var k :| 0 <= k < |plants| && plants[k].plantId == plantId;
      assert k < |init| && init[k].plantId == plantId;
      WithoutEntryDropsOne(init, plantId);
    }
  }

  // ---------------------------------------------------------------------
  // The handlers

  /** What the store holds for a user: the schema rules and one entry per plant. */
  predicate Persisted(userId: string, w: Wishlist) {
    w.userId == userId && SchemaValid(w) && UniquePlants(w.plants)
  }

  class WishlistStore {
    var wishlists: map<string, Wishlist>

    ghost predicate Valid()
      reads this
    {
      forall u :: u in wishlists ==> Persisted(u, wishlists[u])
    }

    constructor ()
      ensures Valid() && wishlists == map[]
    {
      wishlists := map[];
    }

    /** `wishlist.save()`: schema validation, then the write. */
    method Save(w: Wishlist) returns (saved: bool)
      requires Valid() && UniquePlants(w.plants)
      modifies this
      ensures Valid()
      ensures saved <==> SchemaValid(w)
      ensures saved ==> wishlists == old(wishlists)[w.userId := w]
      ensures !saved ==> wishlists == old(wishlists)
    {
      saved := SchemaValid(w);
      if saved {
        wishlists := wishlists[w.userId := w];
      }
    }

    /** GET /:userId: empty when there is none; otherwise the resolving entries and their count. */
    method Get(userId: string, catalog: Catalog) returns (v: WishlistView)
      ensures userId !in wishlists ==> v == WishlistView([], 0)
      ensures userId in wishlists ==> v.plants == HydrateEntries(catalog, wishlists[userId].plants)
      ensures v.totalItems == |v.plants|
      ensures userId in wishlists ==>
        v.totalItems == |wishlists[userId].plants| - |DanglingEntries(catalog, wishlists[userId].plants)|
    {
      if userId !in wishlists {
        return WishlistView([], 0);
      }
      var validPlants := HydrateEntries(catalog, wishlists[userId].plants);
      HydrateEntriesCount(catalog, wishlists[userId].plants);
      v := WishlistView(validPlants, |validPlants|);
    }

    /** POST /:userId. */
    method AddPlant(userId: string, plantId: Option<string>, notes: Option<string>, catalog: Catalog, now: int)
      returns (r: AddPlantResponse)
      requires Valid()
      modifies this
      ensures Valid()
      // a 2xx reply exactly when an entry was added; a duplicate is answered with 400
      ensures r.StatusOf().IsSuccess() <==> r.Added?
      ensures r.AlreadyInWishlist? ==> r.StatusOf().Code() == 400
      ensures ResolveForWishlist(plantId, catalog).Refused? ==>
        r == Rejected(ResolveForWishlist(plantId, catalog).status) && wishlists == old(wishlists)
      ensures ResolveForWishlist(plantId, catalog).Found? && userId in old(wishlists) &&
              Contains(old(wishlists)[userId].plants, plantId.value) ==>
        r == AlreadyInWishlist && wishlists == old(wishlists)
      ensures ResolveForWishlist(plantId, catalog).Found? &&
              !(userId in old(wishlists) && Contains(old(wishlists)[userId].plants, plantId.value)) ==>
        var before := if userId in old(wishlists) then old(wishlists)[userId].plants else [];
        var plants := before + [NewEntry(plantId.value, notes.GetOr(""), Some(now), now)];
        if SchemaValid(Wishlist(userId, plants)) then
          && wishlists == old(wishlists)[userId := Wishlist(userId, plants)]
          && r == Added(|plants|, ResolveForWishlist(plantId, catalog).plant.name)
        else
          wishlists == old(wishlists) && r == Rejected(ServerError)
    {
      var found := ResolveForWishlist(plantId, catalog);
      if found.Refused? {
        return Rejected(found.status);
      }
      var entry := NewEntry(found.id, notes.GetOr(""), Some(now), now);
      var wishlist: Wishlist;
      if userId !in wishlists {
        wishlist := Wishlist(userId, [entry]);
        assert wishlist.plants == [] + [entry];
      } else {
        wishlist := wishlists[userId];
        var existing := FindEntry(wishlist.plants, found.id);
        if existing {
          return AlreadyInWishlist;
        }
        wishlist := wishlist.(plants := wishlist.plants + [entry]);
        assert wishlist == Wishlist(userId, old(wishlists)[userId].plants + [entry]);
      }
      var saved := Save(wishlist);
      if !saved {
        return Rejected(ServerError);
      }
      r := Added(|wishlist.plants|, found.plant.name);
    }

    /** DELETE /:userId/:plantId: the format is checked first; 404 when there is no wishlist or no such entry. */
    method RemovePlant(userId: string, plantId: string) returns (r: Response<nat>)
      requires Valid()
      modifies this
      ensures Valid()
      ensures !IsCanonical(plantId) ==> r == Failure(BadRequest) && wishlists == old(wishlists)
      ensures IsCanonical(plantId) && userId !in old(wishlists) ==> r == Failure(NotFound) && wishlists == old(wishlists)
      ensures IsCanonical(plantId) && userId in old(wishlists) && !Contains(old(wishlists)[userId].plants, plantId) ==>
        r == Failure(NotFound) && wishlists == old(wishlists)
      ensures IsCanonical(plantId) && userId in old(wishlists) && Contains(old(wishlists)[userId].plants, plantId) ==>
        var plants := WithoutEntry(old(wishlists)[userId].plants, plantId);
        && wishlists == old(wishlists)[userId := Wishlist(userId, plants)]
        && r == Success(OK, |plants|)
        && |plants| == |old(wishlists)[userId].plants| - 1
    {
      if !IsValidObjectId(plantId) {
        return Failure(BadRequest);
      }
      if userId !in wishlists {
        return Failure(NotFound);
      }
      var wishlist := wishlists[userId];
      var initialLength := |wishlist.plants|;
      WithoutEntryLength(wishlist.plants, plantId);
      WithoutEntryUnique(wishlist.plants, plantId);
      if Contains(wishlist.plants, plantId) {
        WithoutEntryDropsOne(wishlist.plants, plantId);
      }
      wishlist := wishlist.(plants := WithoutEntry(wishlist.plants, plantId));
      if |wishlist.plants| == initialLength {
        return Failure(NotFound);
      }
      assert forall k :: 0 <= k < |wishlist.plants| ==> wishlist.plants[k] in old(wishlists)[userId].plants;
      var saved := Save(wishlist);
      r := Success(OK, |wishlist.plants|);
    }
  }
}
