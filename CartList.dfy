/** The cart list's quantity editor: a product-id-to-quantity map behind the
    plus, minus and typed-in quantity controls, which emits each accepted change. */
module CartList {
  import opened Wrappers
  import opened Cart

  /** An `updateQuantity` output event. */
  datatype QuantityUpdate = QuantityUpdate(productId: int, quantity: int)

  /** `quantityInputs[id] || 1`: the shown quantity, 1 when unset or 0. */
  function Effective(m: map<int, int>, id: int): (r: int)
    ensures id !in m ==> r == 1
    ensures id in m && m[id] != 0 ==> r == m[id]
  {
    if id in m && m[id] != 0 then m[id] else 1
  }

  /** Every entry is at least 1. */
  ghost predicate AllPositive(m: map<int, int>) {
    forall k :: k in m ==> m[k] >= 1
  }

  /** The map after `ngOnInit`: every item's entry overwritten with its
      quantity, a later item winning over an earlier one with the same id. */
  function SetAll(m: map<int, int>, items: seq<CartItemDetails>): (r: map<int, int>)
    decreases |items|
  {
    if items == [] then m
    else SetAll(m, items[..|items| - 1])[items[|items| - 1].productId := items[|items| - 1].quantity]
  }

  /** The map after `ngOnChanges`: entries only for ids that had none, the
      first item with a new id giving its quantity. */
  function FillMissing(m: map<int, int>, items: seq<CartItemDetails>): (r: map<int, int>)
    decreases |items|
  {
    if items == [] then m
    else
      var prev := FillMissing(m, items[..|items| - 1]);
      var it := items[|items| - 1];
      if it.productId in prev then prev else prev[it.productId := it.quantity]
  }

  /** After `ngOnInit` every item has an entry holding an item quantity, and
      ids not among the items keep what they had. */
  lemma {:induction false} SetAllFacts(m: map<int, int>, items: seq<CartItemDetails>)
    ensures forall i :: 0 <= i < |items| ==> items[i].productId in SetAll(m, items)
    ensures forall k :: k in m ==> k in SetAll(m, items)
    ensures forall k :: k in SetAll(m, items) && (forall i :: 0 <= i < |items| ==> items[i].productId != k) ==>
      k in m && SetAll(m, items)[k] == m[k]
    decreases |items|
  {
    if items != [] {
      var init := items[..|items| - 1];
      SetAllFacts(m, init);
      assert forall i :: 0 <= i < |init| ==> init[i] == items[i];
    }
  }

  /** `ngOnInit` on items without repeated ids sets each item's entry to exactly its quantity. */
  lemma {:induction false} SetAllDistinct(m: map<int, int>, items: seq<CartItemDetails>, i: nat)
    requires i < |items|
    requires forall a, b :: 0 <= a < b < |items| ==> items[a].productId != items[b].productId
    ensures items[i].productId in SetAll(m, items) && SetAll(m, items)[items[i].productId] == items[i].quantity
    decreases |items|
  {
    if i < |items| - 1 {
      var init := items[..|items| - 1];
      SetAllDistinct(m, init, i);
      SetAllFacts(m, init);
    }
  }

  /** `ngOnChanges` keeps every entry it finds and adds one for every item that had none. */
  lemma {:induction false} FillMissingFacts(m: map<int, int>, items: seq<CartItemDetails>)
    ensures forall k :: k in m ==> k in FillMissing(m, items) && FillMissing(m, items)[k] == m[k]
    ensures forall i :: 0 <= i < |items| ==> items[i].productId in FillMissing(m, items)
    ensures forall k :: k in FillMissing(m, items) ==> k in m || exists i :: 0 <= i < |items| && items[i].productId == k
    decreases |items|
  {
    if items != [] {
      var init := items[..|items| - 1];
      FillMissingFacts(m, init);
      assert forall i :: 0 <= i < |init| ==> init[i] == items[i];
    }
  }

  /** Filling in can only add entries the items' quantities supply, so on items
      whose quantities are at least 1 it keeps all entries at least 1. */
  lemma {:induction false} FillMissingPositive(m: map<int, int>, items: seq<CartItemDetails>)
    requires AllPositive(m)
    requires forall i :: 0 <= i < |items| ==> items[i].quantity >= 1
    ensures AllPositive(FillMissing(m, items))
    decreases |items|
  {
    if items != [] {
      FillMissingPositive(m, items[..|items| - 1]);
    }
  }

  /** The plus, minus and typed-in edits never bring an entry below 1 when none was. */
  lemma EditsKeepPositive(m: map<int, int>, id: int, typed: int)
    requires AllPositive(m)
    ensures AllPositive(m[id := Effective(m, id) + 1])
    ensures Effective(m, id) > 1 ==> AllPositive(m[id := Effective(m, id) - 1])
    ensures typed >= 1 ==> AllPositive(m[id := typed])
  {
  }

  /** `getItemTotal`. */
  function ItemTotal(price: int, quantity: int): (r: int)
    ensures quantity == 0 ==> r == 0
    ensures quantity == 1 ==> r == price
    ensures price >= 0 && quantity >= 1 ==> r >= price
  {
    price * quantity
  }

  class CartListComponent {
    var cartItems: seq<CartItemDetails>
    var quantityInputs: map<int, int>
    /** Values emitted on `updateQuantity` and `removeItem`. */
    var updates: seq<QuantityUpdate>
    var removals: seq<int>

    constructor (cartItems: seq<CartItemDetails>)
      ensures this.cartItems == cartItems && quantityInputs == map[] && updates == [] && removals == []
    {
      this.cartItems := cartItems;
      quantityInputs := map[];
      updates := [];
      removals := [];
    }

    method NgOnInit()
      modifies this
      ensures quantityInputs == SetAll(old(quantityInputs), cartItems)
      ensures cartItems == old(cartItems) && updates == old(updates) && removals == old(removals)
    {
      var m := quantityInputs;
      var i := 0;
      while i < |cartItems|
        invariant 0 <= i <= |cartItems|
        invariant m == SetAll(quantityInputs, cartItems[..i])
      {
        assert cartItems[..i + 1][..i] == cartItems[..i];
        m := m[cartItems[i].productId := cartItems[i].quantity];
        i := i + 1;
      }
      assert cartItems[..|cartItems|] == cartItems;
      quantityInputs := m;
    }

    /** New `cartItems` arrive; only ids without an entry get one. */
    method NgOnChanges(newItems: seq<CartItemDetails>)
      modifies this
      ensures cartItems == newItems
      ensures quantityInputs == FillMissing(old(quantityInputs), newItems)
      ensures updates == old(updates) && removals == old(removals)
    {
      cartItems := newItems;
      var m := quantityInputs;
      var i := 0;
      while i < |newItems|
        invariant 0 <= i <= |newItems|
        invariant m == FillMissing(old(quantityInputs), newItems[..i])
      {
        assert newItems[..i + 1][..i] == newItems[..i];
        if newItems[i].productId !in m {
          m := m[newItems[i].productId := newItems[i].quantity];
        }
        i := i + 1;
      }
      assert newItems[..|newItems|] == newItems;
      quantityInputs := m;
    }

    /** One more than shown, stored and emitted. */
    method OnIncreaseQuantity(id: int)
      modifies this
      ensures quantityInputs == old(quantityInputs)[id := Effective(old(quantityInputs), id) + 1]
      ensures updates == old(updates) + [QuantityUpdate(id, Effective(old(quantityInputs), id) + 1)]
      ensures cartItems == old(cartItems) && removals == old(removals)
    {
      var q := Effective(quantityInputs, id);
      quantityInputs := quantityInputs[id := q + 1];
      updates := updates + [QuantityUpdate(id, q + 1)];
    }

    /** One less than shown when that is at least 1; at 1 or below nothing happens. */
    method OnDecreaseQuantity(id: int)
      modifies this
      ensures Effective(old(quantityInputs), id) <= 1 ==>
        quantityInputs == old(quantityInputs) && updates == old(updates)
      ensures Effective(old(quantityInputs), id) > 1 ==>
        quantityInputs == old(quantityInputs)[id := Effective(old(quantityInputs), id) - 1] &&
        updates == old(updates) + [QuantityUpdate(id, Effective(old(quantityInputs), id) - 1)]
      ensures cartItems == old(cartItems) && removals == old(removals)
    {
      var q := Effective(quantityInputs, id);
      if q > 1 {
        quantityInputs := quantityInputs[id := q - 1];
        updates := updates + [QuantityUpdate(id, q - 1)];
      }
    }

    /** A typed value: `parsed` is what integer parsing produced (`None` for
        not-a-number); only values of at least 1 are stored and emitted. */
    method OnQuantityChange(id: int, parsed: Option<int>)
      modifies this
      ensures parsed.Some? && parsed.value >= 1 ==>
        quantityInputs == old(quantityInputs)[id := parsed.value] &&
        updates == old(updates) + [QuantityUpdate(id, parsed.value)]
      ensures !(parsed.Some? && parsed.value >= 1) ==>
        quantityInputs == old(quantityInputs) && updates == old(updates)
      ensures cartItems == old(cartItems) && removals == old(removals)
    {
      if parsed.Some? && parsed.value >= 1 {
        quantityInputs := quantityInputs[id := parsed.value];
        updates := updates + [QuantityUpdate(id, parsed.value)];
      }
    }

    /** Emits the removal only when the user confirms. */
    method OnRemove(id: int, confirmed: bool)
      modifies this
      ensures removals == old(removals) + (if confirmed then [id] else [])
      ensures quantityInputs == old(quantityInputs) && updates == old(updates) && cartItems == old(cartItems)
    {
      if confirmed {
        removals := removals + [id];
      }
    }
  }
}
