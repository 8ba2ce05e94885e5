/**
 * The shopping-cart store: one shared, ordered list of line items keyed by variant id. Each of
 * the four operations replaces the whole list by a value computed from the previous one, and
 * the two totals are folds recomputed from the current list.
 */
module Cart {
  import opened Wrappers
  import Seqs

  /** What `addToCart` receives: a line item without its quantity. Prices are in cents. */
  datatype NewItem = NewItem(variantId: int, productId: int, name: string, price: int,
                             image: string, category: string, variantDetails: Option<string>)

  /** One line of the cart; `price` is the unit price captured when the line was created. */
  datatype CartItem = CartItem(variantId: int, productId: int, name: string, price: int,
                               image: string, quantity: int, category: string,
                               variantDetails: Option<string>)

  /** `{ ...item, quantity }`. */
  function WithQuantity(item: NewItem, quantity: int): CartItem {
    CartItem(item.variantId, item.productId, item.name, item.price, item.image, quantity,
             item.category, item.variantDetails)
  }

  predicate HasVariant(items: seq<CartItem>, variantId: int) {
    exists i :: 0 <= i < |items| && items[i].variantId == variantId
  }

  /** No two lines share a variant id. */
  predicate UniqueKeys(items: seq<CartItem>) {
    forall i, j :: 0 <= i < j < |items| ==> items[i].variantId != items[j].variantId
  }

  /** Every line holds at least one unit. */
  predicate PositiveQuantities(items: seq<CartItem>) {
    forall i :: 0 <= i < |items| ==> items[i].quantity >= 1
  }

  /** The invariant the four operations keep. */
  predicate WellFormed(items: seq<CartItem>) {
    UniqueKeys(items) && PositiveQuantities(items)
  }

  /** `prev.find(i => i.variantId === item.variantId)`. */
  function Existing(items: seq<CartItem>, variantId: int): Option<CartItem> {
    Seqs.Find(items, (i: CartItem) => i.variantId == variantId)
  }

  /** The list after `addToCart(item)`: when a line with the same variant id exists, every such
      line gets one more unit (a `map`); otherwise a line with quantity 1 is appended. */
  function Added(items: seq<CartItem>, item: NewItem): seq<CartItem> {
    match Existing(items, item.variantId)
    case Some(_) =>
      seq(|items|, i requires 0 <= i < |items| =>
        if items[i].variantId == item.variantId then items[i].(quantity := items[i].quantity + 1)
        else items[i])
    case None => items + [WithQuantity(item, 1)]
  }

  /** The list after `removeFromCart(variantId)`: a `filter` on the variant id. */
  function Removed(items: seq<CartItem>, variantId: int): seq<CartItem> {
    Seqs.Filter(items, (i: CartItem) => i.variantId != variantId)
  }

  /** The `map` that `updateQuantity` applies when the quantity is at least 1. */
  function WithLineQuantity(items: seq<CartItem>, variantId: int, quantity: int): seq<CartItem> {
    seq(|items|, i requires 0 <= i < |items| =>
      if items[i].variantId == variantId then items[i].(quantity := quantity) else items[i])
  }

  /** The list after `updateQuantity(variantId, quantity)`. */
  function Updated(items: seq<CartItem>, variantId: int, quantity: int): seq<CartItem> {
    if quantity < 1 then Removed(items, variantId) else WithLineQuantity(items, variantId, quantity)
  }

  /** `totalItems`: the sum of the quantities. */
  function QuantitySum(items: seq<CartItem>): int {
    if items == [] then 0 else items[0].quantity + QuantitySum(items[1..])
  }

  /** `totalPrice`: the sum of unit price times quantity. */
  function PriceSum(items: seq<CartItem>): int {
    if items == [] then 0 else items[0].price * items[0].quantity + PriceSum(items[1..])
  }

  /** The sum of the quantities of the lines with a given variant id. */
  function QuantityOf(items: seq<CartItem>, variantId: int): int {
    if items == [] then 0
    else (if items[0].variantId == variantId then items[0].quantity else 0) + QuantityOf(items[1..], variantId)
  }

  /** The sum of the line prices of the lines with a given variant id. */
  function PriceOf(items: seq<CartItem>, variantId: int): int {
    if items == [] then 0
    else (if items[0].variantId == variantId then items[0].price * items[0].quantity else 0)
         + PriceOf(items[1..], variantId)
  }

  // ---- the first line with a key, under unique keys ----

  /** With unique keys, the line found for a variant id is the only one carrying it. */
  lemma {:induction false} ExistingIsTheLine(items: seq<CartItem>, k: int)
    requires UniqueKeys(items) && 0 <= k < |items|
    ensures Existing(items, items[k].variantId) == Some(items[k])
  {
    var p := (i: CartItem) => i.variantId == items[k].variantId;
    var j := Seqs.FirstIndex(items, p);
    assert p(items[k]);
    assert j <= k;
    assert p(items[j]);
  }

  // ---- sums ----

  /** Replacing one line changes the totals by the difference of the two lines. */
  lemma {:induction false} SumsUpdateAt(items: seq<CartItem>, k: int, line: CartItem)
    requires 0 <= k < |items|
    ensures QuantitySum(items[k := line]) == QuantitySum(items) - items[k].quantity + line.quantity
    ensures PriceSum(items[k := line]) == PriceSum(items) - items[k].price * items[k].quantity + line.price * line.quantity
  {
    if k > 0 {
      SumsUpdateAt(items[1..], k - 1, line);
      assert items[k := line][1..] == items[1..][k - 1 := line];
    } else {
      assert items[k := line][1..] == items[1..];
    }
  }

  /** Appending a line adds its quantity and its price times quantity. */
  lemma {:induction false} SumsAppend(items: seq<CartItem>, line: CartItem)
    ensures QuantitySum(items + [line]) == QuantitySum(items) + line.quantity
    ensures PriceSum(items + [line]) == PriceSum(items) + line.price * line.quantity
  {
    if items == [] {
      assert [] + [line] == [line];
    } else {
      SumsAppend(items[1..], line);
      assert (items + [line])[1..] == items[1..] + [line];
    }
  }

  /** With positive quantities there are at least as many units as lines. */
  lemma {:induction false} QuantitySumAtLeastLength(items: seq<CartItem>)
    requires PositiveQuantities(items)
    ensures QuantitySum(items) >= |items|
  {
    if items != [] {
      QuantitySumAtLeastLength(items[1..]);
    }
  }

  /** A well-formed cart holds no units exactly when it has no lines. */
  lemma EmptyIffNoUnits(items: seq<CartItem>)
    requires WellFormed(items)
    ensures QuantitySum(items) == 0 <==> items == []
  {
    QuantitySumAtLeastLength(items);
  }

  /** With unique keys the quantity and price of a key are those of its one line. */
  lemma {:induction false} OfUniqueKey(items: seq<CartItem>, k: int)
    requires UniqueKeys(items) && 0 <= k < |items|
    ensures QuantityOf(items, items[k].variantId) == items[k].quantity
    ensures PriceOf(items, items[k].variantId) == items[k].price * items[k].quantity
  {
    if k == 0 {
      AbsentKeySums(items[1..], items[0].variantId);
    } else {
      OfUniqueKey(items[1..], k - 1);
    }
  }

  /** A key no line carries contributes nothing. */
  lemma {:induction false} AbsentKeySums(items: seq<CartItem>, variantId: int)
    requires !HasVariant(items, variantId)
    ensures QuantityOf(items, variantId) == 0 && PriceOf(items, variantId) == 0
  {
    if items != [] {
      assert forall i :: 0 <= i < |items| - 1 ==> items[1..][i] == items[i + 1];
      AbsentKeySums(items[1..], variantId);
    }
  }

  // ---- addToCart ----

  /** Adding a variant already in the cart raises that line's quantity by exactly 1; the
      length and every other line are unchanged. */
  lemma AddExisting(items: seq<CartItem>, item: NewItem, k: int)
    requires UniqueKeys(items) && 0 <= k < |items| && items[k].variantId == item.variantId
    ensures Added(items, item) == items[k := items[k].(quantity := items[k].quantity + 1)]
  {
    ExistingIsTheLine(items, k);
  }

  /** Adding a variant not in the cart appends it with quantity 1 after the earlier lines. */
  lemma AddAbsent(items: seq<CartItem>, item: NewItem)
    requires !HasVariant(items, item.variantId)
    ensures Added(items, item) == items + [WithQuantity(item, 1)]
  {
  }

  /** Adding keeps the keys unique and the quantities positive. */
  lemma AddKeepsWellFormed(items: seq<CartItem>, item: NewItem)
    requires WellFormed(items)
    ensures WellFormed(Added(items, item))
  {
    if HasVariant(items, item.variantId) {
      var k :| 0 <= k < |items| && items[k].variantId == item.variantId;
      AddExisting(items, item, k);
    }
  }

  /** Adding one item adds one unit; the price grows by the unit price of the line that
      received it, which for an existing line is that line's captured price, not the new one. */
  lemma AddTotals(items: seq<CartItem>, item: NewItem)
    requires UniqueKeys(items)
    ensures QuantitySum(Added(items, item)) == QuantitySum(items) + 1
    ensures PriceSum(Added(items, item)) == PriceSum(items) + Existing(items, item.variantId).GetOr(WithQuantity(item, 1)).price
  {
    if HasVariant(items, item.variantId) {
      var k :| 0 <= k < |items| && items[k].variantId == item.variantId;
      AddExisting(items, item, k);
      ExistingIsTheLine(items, k);
      SumsUpdateAt(items, k, items[k].(quantity := items[k].quantity + 1));
    } else {
      SumsAppend(items, WithQuantity(item, 1));
    }
  }

  /** Adding the same new variant twice gives one line with quantity 2, not two lines. */
  lemma AddTwice(items: seq<CartItem>, item: NewItem)
    requires !HasVariant(items, item.variantId)
    ensures Added(Added(items, item), item) == items + [WithQuantity(item, 2)]
  {
    var once := items + [WithQuantity(item, 1)];
    assert once[|items|].variantId == item.variantId;
    assert HasVariant(once, item.variantId);
  }

  /** Two different catalogue items that carry the same variant id share one line: the second
      add only raises the quantity of the line built from the first. */
  lemma SharedKeyMerges(first: NewItem, second: NewItem)
    requires first.variantId == second.variantId
    ensures Added(Added([], first), second) == [WithQuantity(first, 2)]
  {
    var once := [WithQuantity(first, 1)];
    assert once[0].variantId == second.variantId;
  }

  // ---- removeFromCart ----

  /** Removing drops every line with the variant id and keeps the others in order; an absent
      id leaves the list as it was. */
  lemma RemoveSpec(items: seq<CartItem>, variantId: int)
    ensures !HasVariant(Removed(items, variantId), variantId)
    ensures Seqs.IsSubsequence(Removed(items, variantId), items)
    ensures forall i :: 0 <= i < |items| && items[i].variantId != variantId ==> items[i] in Removed(items, variantId)
    ensures !HasVariant(items, variantId) ==> Removed(items, variantId) == items
  {
    if !HasVariant(items, variantId) {
      Seqs.FilterAll(items, (i: CartItem) => i.variantId != variantId);
    }
  }

  /** Removing subtracts exactly the quantity and line price of the removed key. */
  lemma {:induction false} RemoveTotals(items: seq<CartItem>, variantId: int)
    ensures QuantitySum(Removed(items, variantId)) == QuantitySum(items) - QuantityOf(items, variantId)
    ensures PriceSum(Removed(items, variantId)) == PriceSum(items) - PriceOf(items, variantId)
  {
    if items != [] {
      RemoveTotals(items[1..], variantId);
    }
  }

  /** Removing a line keeps the keys unique and the quantities positive. */
  lemma RemoveKeepsWellFormed(items: seq<CartItem>, variantId: int)
    requires WellFormed(items)
    ensures WellFormed(Removed(items, variantId))
  {
    RemoveKeepsUnique(items, variantId);
  }

  lemma {:induction false} RemoveKeepsUnique(items: seq<CartItem>, variantId: int)
    requires UniqueKeys(items)
    ensures UniqueKeys(Removed(items, variantId))
  {
    if items != [] {
      RemoveKeepsUnique(items[1..], variantId);
      var rest := Removed(items[1..], variantId);
      forall j | 0 <= j < |rest| ensures rest[j].variantId != items[0].variantId {
        assert rest[j] in items[1..];
      }
    }
  }

  // ---- updateQuantity ----

  /** A quantity below 1 is exactly removal; in particular the minus button on a line of
      quantity 1 (which asks for quantity 0) removes the line. */
  lemma UpdateBelowOneRemoves(items: seq<CartItem>, variantId: int, quantity: int)
    requires quantity < 1
    ensures Updated(items, variantId, quantity) == Removed(items, variantId)
  {
  }

  /** A quantity of at least 1 is set on the matching line only; length, order and every other
      field are unchanged, and an absent id changes nothing. */
  lemma UpdateSetsQuantity(items: seq<CartItem>, variantId: int, quantity: int)
    requires quantity >= 1
    ensures |Updated(items, variantId, quantity)| == |items|
    ensures forall i :: 0 <= i < |items| ==>
      Updated(items, variantId, quantity)[i] ==
        if items[i].variantId == variantId then items[i].(quantity := quantity) else items[i]
    ensures !HasVariant(items, variantId) ==> Updated(items, variantId, quantity) == items
  {
  }

  /** Setting a quantity changes the totals by the difference on that line. */
  lemma UpdateTotals(items: seq<CartItem>, k: int, quantity: int)
    requires UniqueKeys(items) && 0 <= k < |items| && quantity >= 1
    ensures QuantitySum(Updated(items, items[k].variantId, quantity)) == QuantitySum(items) - items[k].quantity + quantity
    ensures PriceSum(Updated(items, items[k].variantId, quantity)) == PriceSum(items) - items[k].price * items[k].quantity + items[k].price * quantity
  {
    var line := items[k].(quantity := quantity);
    SetAt(items, k, quantity);
    SumsUpdateAt(items, k, line);
  }

  /** With unique keys, setting the quantity of a key touches only its line. */
  lemma SetAt(items: seq<CartItem>, k: int, quantity: int)
    requires UniqueKeys(items) && 0 <= k < |items|
    ensures WithLineQuantity(items, items[k].variantId, quantity) == items[k := items[k].(quantity := quantity)]
  {
  }

  /** Updating keeps the keys unique and the quantities positive. */
  lemma UpdateKeepsWellFormed(items: seq<CartItem>, variantId: int, quantity: int)
    requires WellFormed(items)
    ensures WellFormed(Updated(items, variantId, quantity))
  {
    if quantity < 1 {
      RemoveKeepsWellFormed(items, variantId);
    }
  }

  /** The single shared cart. */
  class CartStore {
    var items: seq<CartItem>

    constructor ()
      ensures items == []
    {
      items := [];
    }

    /** `totalItems`, recomputed from the current list. */
    function TotalItems(): int
      reads this
    {
      QuantitySum(items)
    }

    /** `totalPrice`, recomputed from the current list. */
    function TotalPrice(): int
      reads this
    {
      PriceSum(items)
    }

    method AddToCart(item: NewItem)
      modifies this
      ensures items == Added(old(items), item)
      ensures WellFormed(old(items)) ==> WellFormed(items)
    {
      if WellFormed(items) {
        AddKeepsWellFormed(items, item);
      }
      items := Added(items, item);
    }

    method RemoveFromCart(variantId: int)
      modifies this
      ensures items == Removed(old(items), variantId)
      ensures WellFormed(old(items)) ==> WellFormed(items)
    {
      if WellFormed(items) {
        RemoveKeepsWellFormed(items, variantId);
      }
      items := Removed(items, variantId);
    }

    method UpdateQuantity(variantId: int, quantity: int)
      modifies this
      ensures items == Updated(old(items), variantId, quantity)
      ensures WellFormed(old(items)) ==> WellFormed(items)
    {
      if quantity < 1 {
        RemoveFromCart(variantId);
        return;
      }
      if WellFormed(items) {
        UpdateKeepsWellFormed(items, variantId, quantity);
      }
      items := WithLineQuantity(items, variantId, quantity);
    }

    method ClearCart()
      modifies this
      ensures items == [] && TotalItems() == 0 && TotalPrice() == 0
    {
      items := [];
    }
  }
}
