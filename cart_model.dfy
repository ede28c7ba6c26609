/**
 * The cart document (models/Cart.js): its lines, the schema's constraints,
 * and the pre-save hook that recomputes `totalItems` and `totalAmount` from
 * the lines.
 */
module CartModel {
  import opened PlantModel

  /** `quantity` defaults to 1 and must be at least 1. */
  const DefaultQuantity := 1
  const MinQuantity := 1

  /** A cart line: the plant, how many, and the unit price captured when the line was created. */
  datatype CartItem = CartItem(plantId: PlantId, quantity: int, price: int, addedAt: int)

  /** One user's cart, with the two totals stored beside the lines. */
  datatype Cart = Cart(userId: string, items: seq<CartItem>, totalItems: int, totalAmount: int)

  /** The line constraints: a plant reference is required, quantity >= 1 (the price is always present here). */
  predicate ItemValid(item: CartItem) {
    item.plantId != "" && item.quantity >= MinQuantity
  }

  /** Validation on save: the required user id and every line's constraints. */
  predicate SchemaValid(c: Cart) {
    c.userId != "" && forall i :: 0 <= i < |c.items| ==> ItemValid(c.items[i])
  }

  /** `items.reduce((total, item) => total + item.quantity, 0)`. */
  function SumQty(items: seq<CartItem>): int {
    if items == [] then 0 else SumQty(items[..|items| - 1]) + items[|items| - 1].quantity
  }

  /** `items.reduce((total, item) => total + item.price * item.quantity, 0)`. */
  function SumAmount(items: seq<CartItem>): int {
    if items == [] then 0 else SumAmount(items[..|items| - 1]) + LineAmount(items[|items| - 1])
  }

  /** What one line contributes to the amount: its price times its quantity. */
  function LineAmount(item: CartItem): int {
    item.price * item.quantity
  }

  /** The folds read from the front give the same totals: first line plus the rest. */
  lemma {:induction false} SumsFront(items: seq<CartItem>)
    requires items != []
    ensures SumQty(items) == items[0].quantity + SumQty(items[1..])
    ensures SumAmount(items) == LineAmount(items[0]) + SumAmount(items[1..])
  {
    SumsConcat([items[0]], items[1..]);
    assert [items[0]] + items[1..] == items;
    SumsSingleton(items[0]);
  }

  /**
   * Valid lines give at least one item per line, and lines with non-negative
   * prices give a non-negative amount.
   */
  lemma {:induction false} SumsBounds(items: seq<CartItem>)
    ensures (forall i :: 0 <= i < |items| ==> items[i].quantity >= MinQuantity) ==> SumQty(items) >= |items|
    ensures (forall i :: 0 <= i < |items| ==> items[i].price >= 0 && items[i].quantity >= 0) ==> SumAmount(items) >= 0
  {
    if items != [] {
      var init := items[..|items| - 1];
      assert forall i :: 0 <= i < |init| ==> init[i] == items[i];
      SumsBounds(init);
    }
  }

  /** The stored totals are the folds over the stored lines. */
  predicate TotalsConsistent(c: Cart) {
    c.totalItems == SumQty(c.items) && c.totalAmount == SumAmount(c.items)
  }

  /** The pre-save hook: both totals recomputed from the lines, whatever they were before. */
  function WithTotals(c: Cart): (r: Cart)
    ensures TotalsConsistent(r)
    ensures r.userId == c.userId && r.items == c.items
  {
    c.(totalItems := SumQty(c.items), totalAmount := SumAmount(c.items))
  }

  /** At most one line per plant. */
  predicate UniquePlants(items: seq<CartItem>) {
    forall i, j :: 0 <= i < j < |items| ==> items[i].plantId != items[j].plantId
  }

  /** Index of the first line for `plantId`, or -1 (`findIndex`). */
  function IndexOf(items: seq<CartItem>, plantId: PlantId): (r: int)
    ensures -1 <= r < |items|
    ensures r == -1 <==> forall k :: 0 <= k < |items| ==> items[k].plantId != plantId
    ensures r >= 0 ==> items[r].plantId == plantId && forall k :: 0 <= k < r ==> items[k].plantId != plantId
  {
    if items == [] then -1
    else if items[0].plantId == plantId then 0
    else
      var k := IndexOf(items[1..], plantId);
      if k == -1 then -1 else k + 1
  }

  /** A plant has no line in `items` exactly when it has none in all but the last line and not in the last. */
  lemma IndexOfInit(items: seq<CartItem>, plantId: PlantId)
    requires items != []
    ensures IndexOf(items, plantId) == -1 <==>
      IndexOf(items[..|items| - 1], plantId) == -1 && items[|items| - 1].plantId != plantId
  {
    var init := items[..|items| - 1];
    assert forall k :: 0 <= k < |init| ==> init[k] == items[k];
  }

  // ---------------------------------------------------------------------
  // How the folds change when the lines change

  /** Both folds distribute over concatenation. */
  lemma {:induction false} SumsConcat(a: seq<CartItem>, b: seq<CartItem>)
    ensures SumQty(a + b) == SumQty(a) + SumQty(b)
    ensures SumAmount(a + b) == SumAmount(a) + SumAmount(b)
  {
    if b == [] {
      assert a + b == a;
    } else {
      var b' := b[..|b| - 1];
      assert (a + b)[..|a + b| - 1] == a + b';
      SumsConcat(a, b');
    }
  }

  /** Adding `d` to one line's quantity adds `d` to the quantity fold and the line's price times `d` to the amount fold. */
  lemma SumsAddQuantity(items: seq<CartItem>, i: nat, d: int)
    requires i < |items|
    ensures var items' := items[i := items[i].(quantity := items[i].quantity + d)];
      && SumQty(items') == SumQty(items) + d
      && SumAmount(items') == SumAmount(items) + items[i].price * d
  {
    var items' := items[i := items[i].(quantity := items[i].quantity + d)];
    assert items'[..i] == items[..i];
    assert items'[i + 1..] == items[i + 1..];
    SumsSplitAt(items, i);
    SumsSplitAt(items', i);
    LineAmountAdd(items[i], d);
  }

  /** Both folds split around any one line. */
  lemma SumsSplitAt(items: seq<CartItem>, i: nat)
    requires i < |items|
    ensures SumQty(items) == SumQty(items[..i]) + items[i].quantity + SumQty(items[i + 1..])
    ensures SumAmount(items) == SumAmount(items[..i]) + LineAmount(items[i]) + SumAmount(items[i + 1..])
  {
    var pre, x, post := items[..i], items[i], items[i + 1..];
    assert items == pre + ([x] + post);
    SumsConcat(pre, [x] + post);
    SumsConcat([x], post);
    SumsSingleton(x);
  }

  lemma SumsSingleton(x: CartItem)
    ensures SumQty([x]) == x.quantity && SumAmount([x]) == LineAmount(x)
  {
    assert [x][..0] == [];
  }

  lemma LineAmountAdd(x: CartItem, d: int)
    ensures LineAmount(x.(quantity := x.quantity + d)) == LineAmount(x) + x.price * d
  {
  }

  /** Appending a line adds its quantity and its price times its quantity. */
  lemma SumsAppend(items: seq<CartItem>, item: CartItem)
    ensures SumQty(items + [item]) == SumQty(items) + item.quantity
    ensures SumAmount(items + [item]) == SumAmount(items) + LineAmount(item)
  {
    assert (items + [item])[..|items|] == items;
  }
}
