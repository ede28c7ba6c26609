/**
 * The cart routes (routes/cart.js).  Each handler loads one user's cart from
 * the store, changes its lines, and saves it back; saving validates the
 * schema and recomputes the totals.  The store is a map from user id to cart,
 * so there is at most one cart per user (the unique `userId`).
 */
module CartRoutes {
  import opened Wrappers
  import opened Http
  import opened ObjectIds
  import opened PlantModel
  import opened CartModel

  // ---------------------------------------------------------------------
  // GET /:userId  (the read side)

  /** A populated line: the plant's current fields, the quantity and when the line was added. */
  datatype CartLineView = CartLineView(plant: PlantSummary, quantity: int, addedAt: int)

  datatype CartView = CartView(items: seq<CartLineView>, totalItems: int, totalAmount: int)

  /** A line joined with its plant; the price shown is the catalog's current one. */
  function LineView(catalog: Catalog, item: CartItem): CartLineView
    requires item.plantId in catalog
  {
    CartLineView(Summarize(item.plantId, catalog[item.plantId]), item.quantity, item.addedAt)
  }

  /** The lines whose plant no longer resolves in the catalog. */
  function Dangling(catalog: Catalog, items: seq<CartItem>): (r: seq<CartItem>)
    ensures forall x :: x in r <==> x in items && x.plantId !in catalog
  {
    if items == [] then []
    else
      var last := items[|items| - 1];
      Dangling(catalog, items[..|items| - 1]) + (if last.plantId in catalog then [] else [last])
  }

  /**
   * The populate-then-filter of GET: every line whose plant resolves, in
   * order, joined with the plant; lines whose plant is gone are dropped.
   */
  function Hydrate(catalog: Catalog, items: seq<CartItem>): (r: seq<CartLineView>)
    ensures |r| <= |items|
  {
    if items == [] then []
    else
      var last := items[|items| - 1];
      Hydrate(catalog, items[..|items| - 1]) + (if last.plantId in catalog then [LineView(catalog, last)] else [])
  }

  /** GET drops exactly the dangling lines: shown plus dangling is all of them. */
  lemma {:induction false} HydrateCount(catalog: Catalog, items: seq<CartItem>)
    ensures |Hydrate(catalog, items)| + |Dangling(catalog, items)| == |items|
  {
    if items != [] {
      HydrateCount(catalog, items[..|items| - 1]);
    }
  }

  /** GET keeps the stored order: hydrating two runs of lines one after the other is hydrating each and concatenating. */
  lemma {:induction false} HydrateConcat(catalog: Catalog, a: seq<CartItem>, b: seq<CartItem>)
    ensures Hydrate(catalog, a + b) == Hydrate(catalog, a) + Hydrate(catalog, b)
  {
    if b == [] {
      assert a + b == a;
    } else {
      var b' := b[..|b| - 1];
      assert (a + b)[..|a + b| - 1] == a + b';
      HydrateConcat(catalog, a, b');
    }
  }

  /** A single line is shown, joined with its plant, exactly when its plant resolves. */
  lemma HydrateSingleton(catalog: Catalog, item: CartItem)
    ensures Hydrate(catalog, [item]) == (if item.plantId in catalog then [LineView(catalog, item)] else [])
  {
    assert [item][..0] == [];
  }

  /** Every shown line carries its plant's current catalog fields, and every resolving line is shown. */
  lemma {:induction false} HydrateShowsResolvingLines(catalog: Catalog, items: seq<CartItem>)
    ensures forall k :: 0 <= k < |Hydrate(catalog, items)| ==> IsCurrent(catalog, Hydrate(catalog, items)[k].plant)
    ensures forall i :: 0 <= i < |items| && items[i].plantId in catalog ==> LineView(catalog, items[i]) in Hydrate(catalog, items)
  {
    if items != [] {
      var init, last := items[..|items| - 1], items[|items| - 1];
      HydrateShowsResolvingLines(catalog, init);
      assert forall i :: 0 <= i < |init| ==> init[i] == items[i];
      var r0 := Hydrate(catalog, init);
      var tail := if last.plantId in catalog then [LineView(catalog, last)] else [];
      var r := r0 + tail;
      assert Hydrate(catalog, items) == r;
      forall k | 0 <= k < |r|
        ensures IsCurrent(catalog, r[k].plant)
      {
        if k < |r0| {
          assert r[k] == r0[k];
        } else {
          assert r[k] == LineView(catalog, last);
        }
      }
    }
  }

  /** When every plant still resolves, GET shows every line, in order. */
  lemma {:induction false} HydrateAllResolve(catalog: Catalog, items: seq<CartItem>)
    requires forall i :: 0 <= i < |items| ==> items[i].plantId in catalog
    ensures |Hydrate(catalog, items)| == |items|
    ensures forall k :: 0 <= k < |items| ==> Hydrate(catalog, items)[k] == LineView(catalog, items[k])
  {
    if items != [] {
      var init := items[..|items| - 1];
      HydrateAllResolve(catalog, init);
    }
  }

  /** The quantities shown by GET. */
  function ViewQty(views: seq<CartLineView>): int {
    if views == [] then 0 else ViewQty(views[..|views| - 1]) + views[|views| - 1].quantity
  }

  /**
   * GET reports the stored `totalItems`, which still counts the lines whose
   * plant is gone: it is the shown quantities plus the dangling ones.
   */
  lemma {:induction false} StoredTotalCountsDanglingLines(catalog: Catalog, c: Cart)
    requires TotalsConsistent(c)
    ensures c.totalItems == ViewQty(Hydrate(catalog, c.items)) + SumQty(Dangling(catalog, c.items))
  {
    QtyPartition(catalog, c.items);
  }

  lemma {:induction false} QtyPartition(catalog: Catalog, items: seq<CartItem>)
    ensures SumQty(items) == ViewQty(Hydrate(catalog, items)) + SumQty(Dangling(catalog, items))
  {
    if items != [] {
      var init, last := items[..|items| - 1], items[|items| - 1];
      QtyPartition(catalog, init);
      var h := Hydrate(catalog, init);
      var d := Dangling(catalog, init);
      if last.plantId in catalog {
        assert Hydrate(catalog, items) == h + [LineView(catalog, last)];
        assert (h + [LineView(catalog, last)])[..|h|] == h;
        assert Dangling(catalog, items) == d + [];
        assert d + [] == d;
      } else {
        assert Hydrate(catalog, items) == h + [];
        assert h + [] == h;
        SumsAppend(d, last);
      }
    }
  }

  // ---------------------------------------------------------------------
  // POST /:userId  (add a line)

  /** The plant a request names, or the status the route answers with instead. */
  datatype Lookup = Found(id: PlantId, plant: Plant) | Refused(status: Status)

  /**
   * The checks of POST, in order: the plant id must be truthy (400), the
   * driver must be able to cast it (a CastError, 500), the plant must exist
   * (404) and be available (400).
   */
  function ResolveForCart(plantId: Option<string>, catalog: Catalog): (r: Lookup)
    ensures !TruthyString(plantId) ==> r == Refused(BadRequest)
    ensures TruthyString(plantId) && !IsCastable(plantId.value) ==> r == Refused(ServerError)
    ensures TruthyString(plantId) && IsCastable(plantId.value) && Cast(plantId.value).value !in catalog ==>
      r == Refused(NotFound)
    ensures r.Found? <==>
      TruthyString(plantId) && IsCastable(plantId.value) && Cast(plantId.value).value in catalog &&
      catalog[Cast(plantId.value).value].isAvailable
    ensures r.Found? ==> r.id == Cast(plantId.value).value && r.id in catalog && r.plant == catalog[r.id]
    ensures r.Refused? && TruthyString(plantId) && IsCastable(plantId.value) && Cast(plantId.value).value in catalog ==>
      r == Refused(BadRequest)
  {
    if !TruthyString(plantId) then Refused(BadRequest)
    else
      match Cast(plantId.value)
      case None => Refused(ServerError)
      case Some(id) =>
        if id !in catalog then Refused(NotFound)
        else if !catalog[id].isAvailable then Refused(BadRequest)
        else Found(id, catalog[id])
  }

  /**
   * The upsert of POST: a line already holding the plant gets `quantity`
   * added to it and keeps its price; otherwise a line with the catalog's
   * current price is appended.  Lines are matched by plant id.
   */
  function Upsert(items: seq<CartItem>, id: PlantId, quantity: int, price: int, now: int): (r: seq<CartItem>)
    // an existing line is merged in place, and it alone changes
    ensures IndexOf(items, id) >= 0 ==>
      var i := IndexOf(items, id);
      && |r| == |items|
      && r[i].plantId == id && r[i].quantity == items[i].quantity + quantity
      && r[i].price == items[i].price && r[i].addedAt == items[i].addedAt
      && forall k :: 0 <= k < |items| && k != i ==> r[k] == items[k]
    // a new plant gets one new line at the end, with the current price
    ensures IndexOf(items, id) == -1 ==> r == items + [CartItem(id, quantity, price, now)]
  {
    var i := IndexOf(items, id);
    if i >= 0 then items[i := items[i].(quantity := items[i].quantity + quantity)]
    else items + [CartItem(id, quantity, price, now)]
  }

  /** The upsert keeps at most one line per plant. */
  lemma UpsertKeepsPlantsUnique(items: seq<CartItem>, id: PlantId, quantity: int, price: int, now: int)
    requires UniquePlants(items)
    ensures UniquePlants(Upsert(items, id, quantity, price, now))
  {
    var r := Upsert(items, id, quantity, price, now);
    if IndexOf(items, id) == -1 {
      assert forall k :: 0 <= k < |items| ==> r[k] == items[k];
    }
  }

  /** The totals grow by exactly what was added: the quantity, at the price of the line it lands on. */
  lemma UpsertTotals(items: seq<CartItem>, id: PlantId, quantity: int, price: int, now: int)
    ensures SumQty(Upsert(items, id, quantity, price, now)) == SumQty(items) + quantity
    ensures IndexOf(items, id) >= 0 ==>
      SumAmount(Upsert(items, id, quantity, price, now)) == SumAmount(items) + items[IndexOf(items, id)].price * quantity
    ensures IndexOf(items, id) == -1 ==>
      SumAmount(Upsert(items, id, quantity, price, now)) == SumAmount(items) + price * quantity
  {
    var i := IndexOf(items, id);
    if i >= 0 {
      SumsAddQuantity(items, i, quantity);
    } else {
      assert Upsert(items, id, quantity, price, now) == items + [CartItem(id, quantity, price, now)];
      SumsAppend(items, CartItem(id, quantity, price, now));
    }
  }

  /**
   * Repeated adds of one plant to an empty cart leave one line holding the
   * summed quantity at the first add's price.
   */
  lemma RepeatedAddsMerge(id: PlantId, q1: int, q2: int, price1: int, price2: int, t1: int, t2: int)
    ensures Upsert(Upsert([], id, q1, price1, t1), id, q2, price2, t2) == [CartItem(id, q1 + q2, price1, t1)]
  {
    var once := Upsert([], id, q1, price1, t1);
    assert once == [CartItem(id, q1, price1, t1)];
    assert IndexOf(once, id) == 0;
  }

  // ---------------------------------------------------------------------
  // PUT /:userId/:plantId  (set a line's quantity)

  /** The quantity of the line for `plantId` is replaced (not increased); nothing else changes. */
  function SetQuantity(items: seq<CartItem>, plantId: string, quantity: int): (r: seq<CartItem>)
    requires IndexOf(items, plantId) >= 0
    ensures |r| == |items|
    ensures r[IndexOf(items, plantId)].quantity == quantity
    ensures forall k :: 0 <= k < |items| ==> r[k] == (if k == IndexOf(items, plantId) then items[k].(quantity := quantity) else items[k])
    ensures UniquePlants(items) ==> UniquePlants(r)
    ensures SumQty(r) == SumQty(items) - items[IndexOf(items, plantId)].quantity + quantity
    ensures SumAmount(r) == SumAmount(items) + items[IndexOf(items, plantId)].price * (quantity - items[IndexOf(items, plantId)].quantity)
  {
    var i := IndexOf(items, plantId);
    SumsAddQuantity(items, i, quantity - items[i].quantity);
    items[i := items[i].(quantity := quantity)]
  }

  // ---------------------------------------------------------------------
  // DELETE /:userId/:plantId  (remove a line)

  /** `items.filter(item => item.plantId.toString() !== plantId)`. */
  function WithoutPlant(items: seq<CartItem>, plantId: string): (r: seq<CartItem>)
    ensures |r| <= |items|
    ensures forall x :: x in r <==> x in items && x.plantId != plantId
  {
    if items == [] then []
    else
      var init, last := items[..|items| - 1], items[|items| - 1];
      if last.plantId == plantId then WithoutPlant(init, plantId) else WithoutPlant(init, plantId) + [last]
  }

  /** The filter keeps the stored order: filtering two runs of lines one after the other is filtering each and concatenating. */
  lemma {:induction false} WithoutPlantConcat(a: seq<CartItem>, b: seq<CartItem>, plantId: string)
    ensures WithoutPlant(a + b, plantId) == WithoutPlant(a, plantId) + WithoutPlant(b, plantId)
  {
    if b == [] {
      assert a + b == a;
    } else {
      var b' := b[..|b| - 1];
      assert (a + b)[..|a + b| - 1] == a + b';
      WithoutPlantConcat(a, b', plantId);
    }
  }

  /** A single line is kept exactly when it is for another plant. */
  lemma WithoutPlantSingleton(item: CartItem, plantId: string)
    ensures WithoutPlant([item], plantId) == (if item.plantId == plantId then [] else [item])
  {
    assert [item][..0] == [];
  }

  /** The filter keeps every line exactly when no line holds the plant: this is how DELETE detects a missing line. */
  lemma {:induction false} WithoutPlantLength(items: seq<CartItem>, plantId: string)
    ensures |WithoutPlant(items, plantId)| == |items| <==> IndexOf(items, plantId) == -1
  {
    if items != [] {
      var init, last := items[..|items| - 1], items[|items| - 1];
      WithoutPlantLength(init, plantId);
      IndexOfInit(items, plantId);
    }
  }

  /** Removing a plant keeps at most one line per plant. */
  lemma {:induction false} WithoutPlantUnique(items: seq<CartItem>, plantId: string)
    requires UniquePlants(items)
    ensures UniquePlants(WithoutPlant(items, plantId))
  {
    if items != [] {
      var init, last := items[..|items| - 1], items[|items| - 1];
      assert forall k :: 0 <= k < |init| ==> init[k] == items[k];
      WithoutPlantUnique(init, plantId);
      var r0 := WithoutPlant(init, plantId);
      if last.plantId != plantId {
        assert forall k :: 0 <= k < |r0| ==> r0[k] in init;
        assert forall k :: 0 <= k < |r0| ==> r0[k].plantId != last.plantId;
      }
    }
  }

  /** Removing the one line of a plant takes exactly its quantity and amount off the totals. */
  lemma {:induction false} RemoveTotals(items: seq<CartItem>, plantId: string)
    requires UniquePlants(items) && IndexOf(items, plantId) >= 0
    ensures var i := IndexOf(items, plantId);
      && SumQty(WithoutPlant(items, plantId)) == SumQty(items) - items[i].quantity
      && SumAmount(WithoutPlant(items, plantId)) == SumAmount(items) - items[i].price * items[i].quantity
    decreases |items|, 1
  {
    var init, last := items[..|items| - 1], items[|items| - 1];
    assert items == init + [last];
    SumsAppend(init, last);
    if last.plantId == plantId {
      assert WithoutPlant(items, plantId) == WithoutPlant(init, plantId);
      assert forall k :: 0 <= k < |init| ==> init[k].plantId != plantId by {
        forall k | 0 <= k < |init| ensures init[k].plantId != plantId {
          assert init[k] == items[k] && k < |items| - 1;
        }
      }
      NotPresentFilter(init, plantId);
      assert IndexOf(items, plantId) == |items| - 1;
    } else {
      RemoveTotalsInit(items, plantId);
    }
  }

  /** The case of RemoveTotals where the last line is kept. */
  lemma {:induction false} RemoveTotalsInit(items: seq<CartItem>, plantId: string)
    requires UniquePlants(items) && IndexOf(items, plantId) >= 0
    requires items[|items| - 1].plantId != plantId
    ensures var i := IndexOf(items, plantId);
      && SumQty(WithoutPlant(items, plantId)) == SumQty(items) - items[i].quantity
      && SumAmount(WithoutPlant(items, plantId)) == SumAmount(items) - items[i].price * items[i].quantity
    decreases |items|, 0
  {
    var init, last := items[..|items| - 1], items[|items| - 1];
    assert items == init + [last];
    var i := IndexOf(items, plantId);
    assert i < |items| - 1;
    assert init[i] == items[i];
    assert init[i].plantId == plantId;
    assert forall k :: 0 <= k < i ==> init[k] == items[k];
    assert IndexOf(init, plantId) == i;
    assert UniquePlants(init);
    RemoveTotals(init, plantId);
    var r0 := WithoutPlant(init, plantId);
    assert WithoutPlant(items, plantId) == r0 + [last];
    SumsAppend(init, last);
    SumsAppend(r0, last);
  }

  /** Filtering out a plant that has no line changes nothing. */
  lemma {:induction false} NotPresentFilter(items: seq<CartItem>, plantId: string)
    requires forall k :: 0 <= k < |items| ==> items[k].plantId != plantId
    ensures WithoutPlant(items, plantId) == items
  {
    if items != [] {
      var init, last := items[..|items| - 1], items[|items| - 1];
      assert forall k :: 0 <= k < |init| ==> init[k] == items[k];
      NotPresentFilter(init, plantId);
      assert WithoutPlant(items, plantId) == init + [last];
      assert init + [last] == items;
    }
  }

  // ---------------------------------------------------------------------
  // The as-written matching of POST (see Findings in README)

  /**
   * POST as written: the plant is looked up by the cast id, but the existing
   * lines are compared with the raw request string, and a new line stores the
   * cast id.
   */
  function UpsertAsWritten(items: seq<CartItem>, requested: string, id: PlantId, quantity: int, price: int, now: int): (r: seq<CartItem>)
    ensures IndexOf(items, requested) == -1 ==> r == items + [CartItem(id, quantity, price, now)]
    ensures IndexOf(items, requested) >= 0 ==> |r| == |items|
  {
    var i := IndexOf(items, requested);
    if i >= 0 then items[i := items[i].(quantity := items[i].quantity + quantity)]
    else items + [CartItem(id, quantity, price, now)]
  }

  /** When the request already spells the id canonically, the as-written upsert is the corrected one. */
  lemma AsWrittenAgreesOnCanonicalIds(items: seq<CartItem>, id: PlantId, quantity: int, price: int, now: int)
    requires IsCanonical(id)
    ensures UpsertAsWritten(items, id, Cast(id).value, quantity, price, now) == Upsert(items, id, quantity, price, now)
  {
    assert IsCastable(id);
    var c := Cast(id).value;
    assert forall i :: 0 <= i < |c| ==> c[i] == id[i];
    assert c == id;
  }

  /** Upper-casing one hex letter of a canonical id gives a string the driver casts back to that id. */
  lemma UpperCaseVariantCastsBack(id: PlantId, k: nat)
    requires IsCanonical(id) && k < |id| && 'a' <= id[k] <= 'f'
    ensures var u := id[k := (id[k] as int - 'a' as int + 'A' as int) as char];
      u != id && IsCastable(u) && Cast(u) == Some(id)
  {
    var u := id[k := (id[k] as int - 'a' as int + 'A' as int) as char];
    assert u[k] != id[k];
    assert IsCastable(u);
    var c := Cast(u).value;
    assert forall i :: 0 <= i < |c| ==> c[i] == id[i];
    assert c == id;
  }

  /**
   * Adding a plant already in the cart under a spelling of its id with one
   * upper-case hex letter appends a second line for the same plant.
   */
  lemma UpperCaseIdDuplicatesLine(id: PlantId, k: nat, price: int, t1: int, t2: int)
    requires IsCanonical(id) && k < |id| && 'a' <= id[k] <= 'f'
    ensures var u := id[k := (id[k] as int - 'a' as int + 'A' as int) as char];
      var items := [CartItem(id, 1, price, t1)];
      var r := UpsertAsWritten(items, u, Cast(u).value, 1, price, t2);
      UniquePlants(items) && |r| == 2 && r[0].plantId == r[1].plantId && !UniquePlants(r)
  {
    UpperCaseVariantCastsBack(id, k);
    var u := id[k := (id[k] as int - 'a' as int + 'A' as int) as char];
    var items := [CartItem(id, 1, price, t1)];
    assert items[0].plantId != u;
    assert IndexOf(items, u) == -1;
  }

  const SampleId: PlantId := "507f1f77bcf86cd799439011"

  /** The concrete input: "507F1f77bcf86cd799439011" for a cart holding "507f1f77bcf86cd799439011". */
  lemma SampleIdDuplicatesLine()
    ensures var u := SampleId[3 := 'F'];
      var items := [CartItem(SampleId, 1, 299, 0)];
      var r := UpsertAsWritten(items, u, Cast(u).value, 1, 299, 1);
      IsCastable(u) && |r| == 2 && r[0].plantId == r[1].plantId
  {
    assert IsCanonical(SampleId);
    assert SampleId[3] == 'f';
    UpperCaseIdDuplicatesLine(SampleId, 3, 299, 0, 1);
  }

  // ---------------------------------------------------------------------
  // The handlers

  datatype CartTotals = CartTotals(totalItems: int, totalAmount: int)

  datatype ItemAdded = ItemAdded(totalItems: int, totalAmount: int, addedItem: string)

  /** `findIndex` over the lines. */
  method FindLine(items: seq<CartItem>, plantId: string) returns (index: int)
    ensures index == IndexOf(items, plantId)
  {
    index := 0;
    while index < |items|
      invariant 0 <= index <= |items|
      invariant forall k :: 0 <= k < index ==> items[k].plantId != plantId
    {
      if items[index].plantId == plantId {
        return;
      }
      index := index + 1;
    }
    index := -1;
  }

  /** The merge-or-append step of POST, done with `findIndex` on the lines. */
  method MergeLine(items: seq<CartItem>, id: PlantId, quantity: int, price: int, now: int) returns (r: seq<CartItem>)
    ensures r == Upsert(items, id, quantity, price, now)
  {
    var i := FindLine(items, id);
    if i > -1 {
      r := items[i := items[i].(quantity := items[i].quantity + quantity)];
    } else {
      r := items + [CartItem(id, quantity, price, now)];
    }
  }

  /** What the store holds for a user: the schema rules, the recomputed totals and one line per plant. */
  predicate Persisted(userId: string, c: Cart) {
    c.userId == userId && SchemaValid(c) && TotalsConsistent(c) && UniquePlants(c.items)
  }

  /** The cart saved for `userId` with these lines, totals recomputed. */
  function Stored(userId: string, items: seq<CartItem>): Cart {
    Cart(userId, items, SumQty(items), SumAmount(items))
  }

  class CartStore {
    var carts: map<string, Cart>

    ghost predicate Valid()
      reads this
    {
      forall u :: u in carts ==> Persisted(u, carts[u])
    }

    constructor ()
      ensures Valid() && carts == map[]
    {
      carts := map[];
    }

    /** `cart.save()`: schema validation, then the pre-save hook, then the write. */
    method Save(c: Cart) returns (saved: bool)
      requires Valid() && UniquePlants(c.items)
      modifies this
      ensures Valid()
      ensures saved <==> SchemaValid(c)
      ensures saved ==> carts == old(carts)[c.userId := WithTotals(c)]
      ensures !saved ==> carts == old(carts)
    {
      saved := SchemaValid(c);
      if saved {
        carts := carts[c.userId := WithTotals(c)];
      }
    }

    /** GET /:userId: an empty cart when there is none; otherwise the resolving lines and the STORED totals. */
    method Get(userId: string, catalog: Catalog) returns (v: CartView)
      ensures userId !in carts ==> v == CartView([], 0, 0)
      ensures userId in carts ==> v.items == Hydrate(catalog, carts[userId].items)
      ensures userId in carts ==> v.totalItems == carts[userId].totalItems && v.totalAmount == carts[userId].totalAmount
    {
      if userId !in carts {
        return CartView([], 0, 0);
      }
      var cart := carts[userId];
      v := CartView(Hydrate(catalog, cart.items), cart.totalItems, cart.totalAmount);
    }

    /** POST /:userId. */
    method AddItem(userId: string, plantId: Option<string>, quantity: Option<int>, catalog: Catalog, now: int)
      returns (r: Response<ItemAdded>)
      requires Valid()
      modifies this
      ensures Valid()
      ensures ResolveForCart(plantId, catalog).Refused? ==>
        r == Failure(ResolveForCart(plantId, catalog).status) && carts == old(carts)
      ensures ResolveForCart(plantId, catalog).Found? ==>
        var found := ResolveForCart(plantId, catalog);
        var before := if userId in old(carts) then old(carts)[userId].items else [];
        var items := Upsert(before, found.id, quantity.GetOr(DefaultQuantity), found.plant.price, now);
        if SchemaValid(Cart(userId, items, 0, 0)) then
          && carts == old(carts)[userId := Stored(userId, items)]
          && r == Success(Created, ItemAdded(SumQty(items), SumAmount(items), found.plant.name))
        else
          carts == old(carts) && r == Failure(ServerError)
      ensures r.Success? && userId !in old(carts) ==>
        var found := ResolveForCart(plantId, catalog);
        carts[userId].items == [CartItem(found.id, quantity.GetOr(DefaultQuantity), found.plant.price, now)]
    {
      var found := ResolveForCart(plantId, catalog);
      if found.Refused? {
        return Failure(found.status);
      }
      var q := quantity.GetOr(DefaultQuantity);
      var cart: Cart;
      if userId !in carts {
        cart := Cart(userId, [CartItem(found.id, q, found.plant.price, now)], 0, 0);
        assert cart.items == Upsert([], found.id, q, found.plant.price, now);
      } else {
        cart := carts[userId];
        var items := MergeLine(cart.items, found.id, q, found.plant.price, now);
        cart := cart.(items := items);
      }
      UpsertKeepsPlantsUnique(if userId in old(carts) then old(carts)[userId].items else [], found.id, q, found.plant.price, now);
      var saved := Save(cart);
      if !saved {
        return Failure(ServerError);
      }
      r := Success(Created, ItemAdded(carts[userId].totalItems, carts[userId].totalAmount, found.plant.name));
    }

    /** PUT /:userId/:plantId. */
    method UpdateQuantity(userId: string, plantId: string, quantity: int) returns (r: Response<CartTotals>)
      requires Valid()
      modifies this
      ensures Valid()
      ensures quantity <= 0 ==> r == Failure(BadRequest) && carts == old(carts)
      ensures quantity > 0 && userId !in old(carts) ==> r == Failure(NotFound) && carts == old(carts)
      ensures quantity > 0 && userId in old(carts) && IndexOf(old(carts)[userId].items, plantId) == -1 ==>
        r == Failure(NotFound) && carts == old(carts)
      ensures quantity > 0 && userId in old(carts) && IndexOf(old(carts)[userId].items, plantId) >= 0 ==>
        var items := SetQuantity(old(carts)[userId].items, plantId, quantity);
        && carts == old(carts)[userId := Stored(userId, items)]
        && r == Success(OK, CartTotals(SumQty(items), SumAmount(items)))
    {
      if quantity <= 0 {
        return Failure(BadRequest);
      }
      if userId !in carts {
        return Failure(NotFound);
      }
      var cart := carts[userId];
      var i := FindLine(cart.items, plantId);
      if i == -1 {
        return Failure(NotFound);
      }
      cart := cart.(items := cart.items[i := cart.items[i].(quantity := quantity)]);
      var saved := Save(cart);
      r := Success(OK, CartTotals(carts[userId].totalItems, carts[userId].totalAmount));
    }

    /** DELETE /:userId/:plantId: 404 when no cart, or when filtering leaves the line count unchanged. */
    method RemoveItem(userId: string, plantId: string) returns (r: Response<CartTotals>)
      requires Valid()
      modifies this
      ensures Valid()
      ensures userId !in old(carts) ==> r == Failure(NotFound) && carts == old(carts)
      ensures userId in old(carts) && IndexOf(old(carts)[userId].items, plantId) == -1 ==>
        r == Failure(NotFound) && carts == old(carts)
      ensures userId in old(carts) && IndexOf(old(carts)[userId].items, plantId) >= 0 ==>
        var items := WithoutPlant(old(carts)[userId].items, plantId);
        && carts == old(carts)[userId := Stored(userId, items)]
        && r == Success(OK, CartTotals(SumQty(items), SumAmount(items)))
    {
      if userId !in carts {
        return Failure(NotFound);
      }
      var cart := carts[userId];
      var initialLength := |cart.items|;
      WithoutPlantLength(cart.items, plantId);
      WithoutPlantUnique(cart.items, plantId);
      cart := cart.(items := WithoutPlant(cart.items, plantId));
      if |cart.items| == initialLength {
        return Failure(NotFound);
      }
      assert forall k :: 0 <= k < |cart.items| ==> cart.items[k] in old(carts)[userId].items;
      var saved := Save(cart);
      r := Success(OK, CartTotals(carts[userId].totalItems, carts[userId].totalAmount));
    }

    /** DELETE /:userId: the lines are emptied and zero totals reported; 404 when there is no cart. */
    method Clear(userId: string) returns (r: Response<CartTotals>)
      requires Valid()
      modifies this
      ensures Valid()
      ensures userId !in old(carts) ==> r == Failure(NotFound) && carts == old(carts)
      ensures userId in old(carts) ==>
        carts == old(carts)[userId := Cart(userId, [], 0, 0)] && r == Success(OK, CartTotals(0, 0))
    {
      if userId !in carts {
        return Failure(NotFound);
      }
      var cart := carts[userId];
      cart := cart.(items := []);
      var saved := Save(cart);
      r := Success(OK, CartTotals(0, 0));
    }
  }
}
