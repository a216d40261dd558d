/**
 * The cart page: the cart read from storage on mount (with missing
 * quantities defaulted to 1), quantity edits, removal, clearing, and the
 * displayed total. Every change replaces the page's cart and rewrites (or,
 * for clearing, deletes) the stored `"cart"` value.
 */
module CartPage {
  import opened Wrappers
  import opened JsArray
  import opened Catalog
  import opened Storage

  /** A product record with its quantity; the line's identity is `item.id`. */
  datatype CartLine = CartLine(item: Product, quantity: int)

  // ---------------------------------------------------------------------------
  // Load and persist
  // ---------------------------------------------------------------------------

  /** `item.quantity ?? 1`: only a missing quantity is replaced. */
  function StoredQuantity(quantity: Option<int>): int
  {
    match quantity
    case None => 1
    case Some(q) => q
  }

  /** The `.map` of the mount effect: each entry keeps its fields and gets a quantity. */
  function Normalize(stored: seq<StoredLine>): (r: seq<CartLine>)
    ensures |r| == |stored|
    ensures forall k :: 0 <= k < |stored| ==> r[k].item == stored[k].item
    ensures forall k :: 0 <= k < |stored| ==>
      r[k].quantity == (if stored[k].quantity.Some? then stored[k].quantity.value else 1)
  {
    if stored == [] then []
    else [CartLine(stored[0].item, StoredQuantity(stored[0].quantity))] + Normalize(stored[1..])
  }

  /** The cart the page shows after mounting: empty when the key is absent. */
  function LoadCart(slot: Option<seq<StoredLine>>): (r: seq<CartLine>)
    ensures slot.None? ==> r == []
    ensures slot.Some? ==> |r| == |slot.value|
    ensures slot.Some? ==> forall k :: 0 <= k < |r| ==>
      r[k].item == slot.value[k].item && r[k].quantity == StoredQuantity(slot.value[k].quantity)
  {
    match slot
    case None => []
    case Some(stored) => Normalize(stored)
  }

  /** `JSON.stringify(updatedCart)`: every written entry carries its quantity. */
  function Persist(cart: seq<CartLine>): (r: seq<StoredLine>)
    ensures |r| == |cart|
    ensures forall k :: 0 <= k < |cart| ==> r[k] == StoredLine(cart[k].item, Some(cart[k].quantity))
  {
    if cart == [] then [] else [StoredLine(cart[0].item, Some(cart[0].quantity))] + Persist(cart[1..])
  }

  /** What the page writes, it reads back unchanged on the next mount. */
  lemma LoadAfterPersist(cart: seq<CartLine>)
    ensures LoadCart(Some(Persist(cart))) == cart
  {
    var r := LoadCart(Some(Persist(cart)));
    assert forall k :: 0 <= k < |cart| ==> r[k] == cart[k];
  }

  lemma NormalizeAppend(a: seq<StoredLine>, b: seq<StoredLine>)
    ensures Normalize(a + b) == Normalize(a) + Normalize(b)
  {
    var l, r := Normalize(a + b), Normalize(a) + Normalize(b);
    forall k | 0 <= k < |l| ensures l[k] == r[k] {
      if k < |a| { assert (a + b)[k] == a[k]; } else { assert (a + b)[k] == b[k - |a|]; }
    }
  }

  /**
   * A product added on the listing page (stored without a quantity) shows up
   * on the cart page as a new last line with quantity 1.
   */
  lemma AddedProductLoadsWithQuantityOne(stored: seq<StoredLine>, product: Product)
    ensures LoadCart(Some(stored + [StoredLine(product, None)]))
         == LoadCart(Some(stored)) + [CartLine(product, 1)]
  {
    NormalizeAppend(stored, [StoredLine(product, None)]);
  }

  /** Adding the same product twice gives two separate lines of quantity 1, not one line of 2. */
  lemma DuplicateAddGivesTwoLines(stored: seq<StoredLine>, product: Product)
    ensures LoadCart(Some(stored + [StoredLine(product, None)] + [StoredLine(product, None)]))
         == LoadCart(Some(stored)) + [CartLine(product, 1), CartLine(product, 1)]
  {
    AddedProductLoadsWithQuantityOne(stored, product);
    AddedProductLoadsWithQuantityOne(stored + [StoredLine(product, None)], product);
  }

  // ---------------------------------------------------------------------------
  // The transforms behind the three actions
  // ---------------------------------------------------------------------------

  /** The `.map` of `updateQuantity`: every line with the id gets the new quantity. */
  function UpdatedQuantity(cart: seq<CartLine>, id: int, quantity: int): (r: seq<CartLine>)
    ensures |r| == |cart|
    ensures forall k :: 0 <= k < |cart| && cart[k].item.id == id ==> r[k] == CartLine(cart[k].item, quantity)
    ensures forall k :: 0 <= k < |cart| && cart[k].item.id != id ==> r[k] == cart[k]
  {
    if cart == [] then []
    else
      var head := if cart[0].item.id == id then CartLine(cart[0].item, quantity) else cart[0];
      [head] + UpdatedQuantity(cart[1..], id, quantity)
  }

  function HasOtherId(id: int): CartLine -> bool
  {
    (l: CartLine) => l.item.id != id
  }

  /** The `.filter` of `removeItem`. */
  function WithoutItem(cart: seq<CartLine>, id: int): (r: seq<CartLine>)
    ensures forall k :: 0 <= k < |r| ==> r[k].item.id != id
    ensures forall l: CartLine :: l.item.id != id ==> multiset(r)[l] == multiset(cart)[l]
    ensures Subsequence(r, cart)
  {
    var keep := HasOtherId(id);
    assert forall l: CartLine :: keep(l) == (l.item.id != id);
    Filter(cart, keep)
  }

  /** Removing an id twice is the same as removing it once. */
  lemma WithoutItemIdempotent(cart: seq<CartLine>, id: int)
    ensures WithoutItem(WithoutItem(cart, id), id) == WithoutItem(cart, id)
  {
    var once := WithoutItem(cart, id);
    assert forall k :: 0 <= k < |once| ==> HasOtherId(id)(once[k]);
  }

  // ---------------------------------------------------------------------------
  // Total
  // ---------------------------------------------------------------------------

  /** `item.quantity || 1`: a zero quantity counts as 1. */
  function EffectiveQuantity(quantity: int): int
  {
    if quantity == 0 then 1 else quantity
  }

  function LineTotal(line: CartLine): int
  {
    line.item.price * EffectiveQuantity(line.quantity)
  }

  /** `cart.reduce((acc, item) => acc + ..., acc)`: a left fold. */
  function Reduce(acc: int, cart: seq<CartLine>): int
    decreases |cart|
  {
    if cart == [] then acc else Reduce(acc + LineTotal(cart[0]), cart[1..])
  }

  /** `totalPrice`, in cents. */
  function TotalPrice(cart: seq<CartLine>): (r: int)
    ensures cart == [] ==> r == 0
  {
    Reduce(0, cart)
  }

  /** Reference definition: the sum of the line totals. */
  function SumOfLineTotals(cart: seq<CartLine>): int
  {
    if cart == [] then 0 else LineTotal(cart[0]) + SumOfLineTotals(cart[1..])
  }

  /** Reference definition: the sum of price times quantity. */
  function SumPriceTimesQuantity(cart: seq<CartLine>): int
  {
    if cart == [] then 0 else cart[0].item.price * cart[0].quantity + SumPriceTimesQuantity(cart[1..])
  }

  lemma {:induction false} ReduceIsSum(acc: int, cart: seq<CartLine>)
    ensures Reduce(acc, cart) == acc + SumOfLineTotals(cart)
    decreases |cart|
  {
    if cart != [] {
      ReduceIsSum(acc + LineTotal(cart[0]), cart[1..]);
    }
  }

  /** The total is the sum over the lines of price times (quantity, or 1 when it is 0). */
  lemma TotalIsSumOfLineTotals(cart: seq<CartLine>)
    ensures TotalPrice(cart) == SumOfLineTotals(cart)
  {
    ReduceIsSum(0, cart);
  }

  /** The total of two carts laid end to end is the sum of their totals. */
  lemma {:induction false} TotalOfConcatenation(a: seq<CartLine>, b: seq<CartLine>)
    ensures TotalPrice(a + b) == TotalPrice(a) + TotalPrice(b)
    decreases |a|
  {
    TotalIsSumOfLineTotals(a + b);
    TotalIsSumOfLineTotals(a);
    TotalIsSumOfLineTotals(b);
    SumOfConcatenation(a, b);
  }

  lemma {:induction false} SumOfConcatenation(a: seq<CartLine>, b: seq<CartLine>)
    ensures SumOfLineTotals(a + b) == SumOfLineTotals(a) + SumOfLineTotals(b)
    decreases |a|
  {
    if a != [] {
      assert (a + b)[1..] == a[1..] + b;
      SumOfConcatenation(a[1..], b);
    } else {
      assert a + b == b;
    }
  }

  predicate QuantitiesPositive(cart: seq<CartLine>)
  {
    forall k :: 0 <= k < |cart| ==> cart[k].quantity >= 1
  }

  /** With every quantity at least 1, the total is exactly the sum of price times quantity. */
  lemma {:induction false} TotalOfPositiveQuantities(cart: seq<CartLine>)
    requires QuantitiesPositive(cart)
    ensures TotalPrice(cart) == SumPriceTimesQuantity(cart)
  {
    TotalIsSumOfLineTotals(cart);
    SumsAgree(cart);
  }

  lemma {:induction false} SumsAgree(cart: seq<CartLine>)
    requires QuantitiesPositive(cart)
    ensures SumOfLineTotals(cart) == SumPriceTimesQuantity(cart)
  {
    if cart != [] {
      assert cart[0].quantity >= 1;
      assert QuantitiesPositive(cart[1..]) by {
        forall k | 0 <= k < |cart[1..]| ensures cart[1..][k].quantity >= 1 {
          assert cart[1..][k] == cart[k + 1];
        }
      }
      SumsAgree(cart[1..]);
    }
  }

  // ---------------------------------------------------------------------------
  // The page as a state machine
  // ---------------------------------------------------------------------------

  /** The page's cart and the stored `"cart"` value. */
  datatype CartState = CartState(cart: seq<CartLine>, slot: Option<seq<StoredLine>>)

  datatype CartAction = Update(id: int, quantity: int) | Remove(id: int) | Clear

  /** The effect of one action on the page's cart and on storage. */
  function Apply(state: CartState, action: CartAction): CartState
  {
    match action
    case Update(id, quantity) =>
      if quantity < 1 then state
      else
        var updatedCart := UpdatedQuantity(state.cart, id, quantity);
        CartState(updatedCart, Some(Persist(updatedCart)))
    case Remove(id) =>
      var updatedCart := WithoutItem(state.cart, id);
      CartState(updatedCart, Some(Persist(updatedCart)))
    case Clear => CartState([], None)
  }

  function Replay(state: CartState, actions: seq<CartAction>): CartState
    decreases |actions|
  {
    if actions == [] then state else Replay(Apply(state, actions[0]), actions[1..])
  }

  /** The stored value reloads to exactly the cart the page shows. */
  predicate Synced(state: CartState)
  {
    LoadCart(state.slot) == state.cart
  }

  /** Every stored entry's quantity is either missing or at least 1. */
  predicate StoredQuantitiesPositive(stored: seq<StoredLine>)
  {
    forall k :: 0 <= k < |stored| ==> stored[k].quantity.None? || stored[k].quantity.value >= 1
  }

  /** Loading never introduces a quantity below 1 of its own. */
  lemma LoadKeepsQuantitiesPositive(slot: Option<seq<StoredLine>>)
    requires slot.Some? ==> StoredQuantitiesPositive(slot.value)
    ensures QuantitiesPositive(LoadCart(slot))
  {
  }

  lemma ApplyKeepsInvariants(state: CartState, action: CartAction)
    ensures QuantitiesPositive(state.cart) ==> QuantitiesPositive(Apply(state, action).cart)
    ensures Synced(state) ==> Synced(Apply(state, action))
    ensures !(action.Update? && action.quantity < 1) ==> Synced(Apply(state, action))
    ensures action.Update? && action.quantity < 1 ==> Apply(state, action) == state
  {
    match action
    case Update(id, quantity) =>
      if quantity >= 1 { LoadAfterPersist(Apply(state, action).cart); }
    case Remove(id) =>
      var r := WithoutItem(state.cart, id);
      LoadAfterPersist(r);
      if QuantitiesPositive(state.cart) {
        SubsequenceElements(r, state.cart);
        forall k | 0 <= k < |r| ensures r[k].quantity >= 1 {
          var i :| 0 <= i < |state.cart| && state.cart[i] == r[k];
        }
      }
    case Clear =>
  }

  /**
   * Starting from a loaded cart whose quantities are all at least 1, no run
   * of quantity edits, removals and clears produces a quantity below 1, and
   * the stored value keeps reloading to the cart shown.
   */
  lemma {:induction false} ReplayKeepsInvariants(state: CartState, actions: seq<CartAction>)
    requires QuantitiesPositive(state.cart)
    requires Synced(state)
    ensures QuantitiesPositive(Replay(state, actions).cart)
    ensures Synced(Replay(state, actions))
    decreases |actions|
  {
    if actions != [] {
      ApplyKeepsInvariants(state, actions[0]);
      ReplayKeepsInvariants(Apply(state, actions[0]), actions[1..]);
    }
  }

  class CartView {
    var cart: seq<CartLine>
    const store: Store

    function State(): CartState
      reads this, store
    {
      CartState(cart, store.slot)
    }

    /** Initial empty cart, then the mount effect that loads and normalizes the stored cart. */
    constructor (store: Store)
      ensures this.store == store
      ensures cart == LoadCart(store.slot)
      ensures Synced(State())
    {
      this.store := store;
      cart := [];
      if store.slot.Some? {
        cart := Normalize(store.slot.value);
      }
    }

    /** `updateQuantity`: quantities below 1 are ignored. */
    method UpdateQuantity(id: int, quantity: int)
      modifies this`cart, store`slot
      ensures quantity < 1 ==> cart == old(cart) && store.slot == old(store.slot)
      ensures quantity >= 1 ==> cart == UpdatedQuantity(old(cart), id, quantity)
      ensures quantity >= 1 ==> store.slot == Some(Persist(cart))
      ensures State() == Apply(old(State()), Update(id, quantity))
    {
      if quantity < 1 {
        return;
      }
      var updatedCart := UpdatedQuantity(cart, id, quantity);
      cart := updatedCart;
      store.slot := Some(Persist(updatedCart));
    }

    /** `removeItem`. */
    method RemoveItem(id: int)
      modifies this`cart, store`slot
      ensures cart == WithoutItem(old(cart), id)
      ensures store.slot == Some(Persist(cart))
      ensures State() == Apply(old(State()), Remove(id))
    {
      var updatedCart := WithoutItem(cart, id);
      cart := updatedCart;
      store.slot := Some(Persist(updatedCart));
    }

    /** `clearCart`: the key is deleted, not set to an empty array. */
    method ClearCart()
      modifies this`cart, store`slot
      ensures cart == [] && store.slot == None
      ensures State() == Apply(old(State()), Clear)
    {
      cart := [];
      store.slot := None;
    }
  }

}
