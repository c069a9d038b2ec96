/**
 * The cart screen's per-item quantities (src/screens/CartScreen.tsx): a map
 * from item id to quantity, created with every item at 1, kept in step with
 * the cart's contents, changed by the -/+ buttons, and the subtotal it gives.
 */
module CartScreen {
  import opened Wrappers
  import opened BookmarkContext
  import opened Prices

  /** `quantities[id] || 1`: a missing entry (and a zero one) counts as 1. */
  function QuantityOf(quantities: map<string, int>, id: string): int {
    if id in quantities && quantities[id] != 0 then quantities[id] else 1
  }

  /** `Math.max(1, (quantities[id] || 1) + delta)`. */
  function NewQuantity(quantities: map<string, int>, id: string, delta: int): (r: int)
    ensures r >= 1 && r >= QuantityOf(quantities, id) + delta
    ensures r == 1 || r == QuantityOf(quantities, id) + delta
  {
    var q := QuantityOf(quantities, id) + delta;
    if q < 1 then 1 else q
  }

  /** Every stored quantity is at least 1. */
  predicate AtLeastOne(quantities: map<string, int>) {
    forall id | id in quantities :: quantities[id] >= 1
  }

  /**
   * The `reduce` that gives the subtotal: the sum over the items, in order, of
   * price times quantity. `None` is NaN, which a single unreadable price
   * spreads to the whole sum.
   */
  function Subtotal(items: seq<BookmarkedPackage>, quantities: map<string, int>): Option<real> {
    if items == [] then Some(0.0)
    else
      var last := items[|items| - 1];
      AddLine(Subtotal(items[..|items| - 1], quantities), PriceValue(last.price), QuantityOf(quantities, last.id) as real)
  }

  /** `sum + price * quantity`, where NaN on either side gives NaN. */
  function AddLine(sum: Option<real>, price: Option<real>, quantity: real): Option<real> {
    if sum.Some? && price.Some? then Some(sum.value + price.value * quantity) else None
  }

  /** The subtotal is NaN exactly when some item's price is. */
  lemma SubtotalNaNIff(items: seq<BookmarkedPackage>, quantities: map<string, int>)
    ensures Subtotal(items, quantities).None? <==> exists i | 0 <= i < |items| :: Unreadable(items[i])
  {
    if exists i | 0 <= i < |items| :: Unreadable(items[i]) {
      var i :| 0 <= i < |items| && Unreadable(items[i]);
      UnreadableSpoilsSubtotal(items, quantities, i);
    } else {
      ReadableGivesSubtotal(items, quantities);
    }
  }

  lemma {:induction false} UnreadableSpoilsSubtotal(items: seq<BookmarkedPackage>, quantities: map<string, int>, i: nat)
    requires i < |items| && Unreadable(items[i])
    ensures Subtotal(items, quantities).None?
  {
    SubtotalNaNStep(items, quantities);
    if i < |items| - 1 {
      var init := items[..|items| - 1];
      assert init[i] == items[i];
      UnreadableSpoilsSubtotal(init, quantities, i);
    }
  }

  lemma {:induction false} ReadableGivesSubtotal(items: seq<BookmarkedPackage>, quantities: map<string, int>)
    requires forall i | 0 <= i < |items| :: !Unreadable(items[i])
    ensures Subtotal(items, quantities).Some?
  {
    if items != [] {
      var init := items[..|items| - 1];
      assert forall i | 0 <= i < |init| :: init[i] == items[i];
      ReadableGivesSubtotal(init, quantities);
      SubtotalNaNStep(items, quantities);
    }
  }

  /** An item whose price reads as NaN. */
  predicate Unreadable(item: BookmarkedPackage) {
    PriceValue(item.price).None?
  }

  lemma SubtotalNaNStep(items: seq<BookmarkedPackage>, quantities: map<string, int>)
    requires items != []
    ensures Subtotal(items, quantities).None? <==>
            Subtotal(items[..|items| - 1], quantities).None? || Unreadable(items[|items| - 1])
  {
  }

  /** With every quantity at least 1, a subtotal that is a number is not negative. */
  lemma {:induction false} SubtotalNonNegative(items: seq<BookmarkedPackage>, quantities: map<string, int>)
    requires AtLeastOne(quantities)
    ensures Subtotal(items, quantities).Some? ==> Subtotal(items, quantities).value >= 0.0
  {
    if items != [] {
      var last := items[|items| - 1];
      SubtotalNonNegative(items[..|items| - 1], quantities);
      AddLineNonNegative(Subtotal(items[..|items| - 1], quantities), PriceValue(last.price), QuantityOf(quantities, last.id) as real);
    }
  }

  lemma AddLineNonNegative(sum: Option<real>, price: Option<real>, quantity: real)
    requires sum.Some? ==> sum.value >= 0.0
    requires price.Some? ==> price.value >= 0.0
    requires quantity >= 0.0
    ensures AddLine(sum, price, quantity).Some? ==> AddLine(sum, price, quantity).value >= 0.0
  {
    if sum.Some? && price.Some? {
      ProductNonNegative(price.value, quantity);
    }
  }

  lemma ProductNonNegative(x: real, y: real)
    requires x >= 0.0 && y >= 0.0
    ensures x * y >= 0.0
  {
  }

  /** The subtotal reads the quantities only through the ids of the items in the cart. */
  lemma {:induction false} SubtotalReadsCartQuantities(items: seq<BookmarkedPackage>, q1: map<string, int>, q2: map<string, int>)
    requires forall i | 0 <= i < |items| :: QuantityOf(q1, items[i].id) == QuantityOf(q2, items[i].id)
    ensures Subtotal(items, q1) == Subtotal(items, q2)
  {
    if items != [] {
      var init := items[..|items| - 1];
      assert forall i | 0 <= i < |init| :: init[i] == items[i];
      SubtotalReadsCartQuantities(init, q1, q2);
    }
  }

  /** With no quantities chosen, the subtotal is the plain sum of the prices. */
  lemma SubtotalAtOne(items: seq<BookmarkedPackage>, quantities: map<string, int>)
    requires forall id | id in quantities :: quantities[id] == 1
    ensures Subtotal(items, quantities) == Subtotal(items, map[])
  {
    SubtotalReadsCartQuantities(items, quantities, map[]);
  }

  /** The screen's `quantities` state. */
  class CartQuantities {
    var quantities: map<string, int>

    ghost predicate Valid()
      reads this
    {
      AtLeastOne(quantities)
    }

    /** The initial state: every item of the cart at quantity 1. */
    constructor (cartItems: seq<BookmarkedPackage>)
      ensures Valid()
      ensures forall id :: id in quantities <==> HasId(cartItems, id)
      ensures forall id | id in quantities :: quantities[id] == 1
    {
      var initial: map<string, int> := map[];
      for i := 0 to |cartItems|
        invariant forall id :: id in initial <==> exists j | 0 <= j < i :: cartItems[j].id == id
        invariant forall id | id in initial :: initial[id] == 1
      {
        initial := initial[cartItems[i].id := 1];
      }
      quantities := initial;
    }

    /**
     * The effect that runs when the cart changes: new items get quantity 1,
     * items still in the cart keep theirs, and entries for items no longer in
     * the cart are deleted. The subtotal does not change.
     */
    method Sync(cartItems: seq<BookmarkedPackage>)
      requires Valid()
      modifies this
      ensures Valid()
      ensures forall id :: id in quantities <==> HasId(cartItems, id)
      ensures forall id | id in quantities ::
                quantities[id] == if id in old(quantities) then old(quantities)[id] else 1
      ensures Subtotal(cartItems, quantities) == Subtotal(cartItems, old(quantities))
    {
      var updated := quantities;
      for i := 0 to |cartItems|
        invariant forall id :: id in updated <==> id in quantities || exists j | 0 <= j < i :: cartItems[j].id == id
        invariant forall id | id in updated :: updated[id] == if id in quantities then quantities[id] else 1
      {
        if cartItems[i].id !in updated {
          updated := updated[cartItems[i].id := 1];
        }
      }
      var keys := updated.Keys;
      while keys != {}
        invariant keys <= updated.Keys
        invariant forall id | id in updated :: id in keys || HasId(cartItems, id)
        invariant forall id :: HasId(cartItems, id) ==> id in updated
        invariant forall id | id in updated :: updated[id] == if id in quantities then quantities[id] else 1
        decreases keys
      {
        var id :| id in keys;
        if !HasId(cartItems, id) {
          updated := updated - {id};
        }
        keys := keys - {id};
      }
      forall i | 0 <= i < |cartItems|
        ensures QuantityOf(updated, cartItems[i].id) == QuantityOf(quantities, cartItems[i].id)
      {
        assert HasId(cartItems, cartItems[i].id);
      }
      SubtotalReadsCartQuantities(cartItems, updated, quantities);
      quantities := updated;
    }

    /** `handleQuantityChange(id, delta)`: only the entry for `id` changes, and never drops below 1. */
    method ChangeQuantity(id: string, delta: int)
      requires Valid()
      modifies this
      ensures Valid()
      ensures id in quantities && quantities[id] == NewQuantity(old(quantities), id, delta)
      ensures forall k | k != id :: (k in quantities <==> k in old(quantities))
      ensures forall k | k in quantities && k != id :: quantities[k] == old(quantities)[k]
    {
      quantities := quantities[id := NewQuantity(quantities, id, delta)];
    }
  }
}
