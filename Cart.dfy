/** The cart: a list of (product id, quantity) entries kept in browser storage
    and re-emitted to subscribers after every save. */
module Cart {
  import opened Wrappers
  import opened Seqs

  /** One cart entry (the `addedAt` timestamp is left out). */
  datatype CartItem = CartItem(productId: int, quantity: int)

  /** A cart entry joined with its product, as the cart page shows it. */
  datatype CartItemDetails = CartItemDetails(
    productId: int,
    quantity: int,
    title: string,
    price: int,
    image: string,
    description: string,
    category: string)

  /** The quantity `addToCart` uses when the caller gives none. */
  const DefaultQuantity := 1

  /** No product id occurs twice. */
  ghost predicate NoDupIds(c: seq<CartItem>) {
    forall i, j :: 0 <= i < j < |c| ==> c[i].productId != c[j].productId
  }

  ghost predicate Absent(c: seq<CartItem>, id: int) {
    forall i :: 0 <= i < |c| ==> c[i].productId != id
  }

  /** `findIndex(item => item.productId === id)`: the first position holding `id`. */
  function FindIndex(c: seq<CartItem>, id: int): (r: Option<nat>)
    ensures r.Some? ==> r.value < |c| && c[r.value].productId == id
    ensures r.Some? ==> forall j :: 0 <= j < r.value ==> c[j].productId != id
    ensures r.None? <==> Absent(c, id)
    decreases |c|
  {
    if c == [] then None
    else if c[0].productId == id then Some(0)
    else match FindIndex(c[1..], id)
      case None => None
      case Some(k) => Some(k + 1)
  }

  /** The cart after `addToCart(id, q)`: the first entry with `id` grows by `q`, or a new entry is appended. */
  function AddTo(c: seq<CartItem>, id: int, q: int): (r: seq<CartItem>)
  {
    match FindIndex(c, id)
    case Some(i) => c[i := c[i].(quantity := c[i].quantity + q)]
    case None => c + [CartItem(id, q)]
  }

  /** The cart after `removeFromCart(id)`. */
  function RemoveFrom(c: seq<CartItem>, id: int): (r: seq<CartItem>)
    ensures Absent(r, id)
    ensures forall i :: 0 <= i < |r| ==> r[i] in c
    ensures forall i :: 0 <= i < |c| && c[i].productId != id ==> c[i] in r
  {
    Filter((it: CartItem) => it.productId != id, c)
  }

  /** Removal keeps every other entry as often as it occurred, repeated
      entries included, and leaves no entry with the id. */
  lemma RemoveFromCounts(c: seq<CartItem>, id: int, x: CartItem)
    ensures multiset(RemoveFrom(c, id))[x] == if x.productId == id then 0 else multiset(c)[x]
  {
    FilterCounts((it: CartItem) => it.productId != id, c, x);
  }

  /** What `updateQuantity(id, q)` saves: the removal when `q < 1`, the first
      entry with `id` set to `q` otherwise, and nothing at all (`None`) when `q >= 1`
      and `id` is absent. */
  function SetQuantity(c: seq<CartItem>, id: int, q: int): (r: Option<seq<CartItem>>)
    ensures q < 1 ==> r == Some(RemoveFrom(c, id))
    ensures q >= 1 ==> (r.None? <==> Absent(c, id))
  {
    if q < 1 then Some(RemoveFrom(c, id))
    else match FindIndex(c, id)
      case Some(i) => Some(c[i := c[i].(quantity := q)])
      case None => None
  }

  /** `getTotalItemsCount` and each value of `cartCount$`: the sum of the quantities. */
  function TotalItems(c: seq<CartItem>): int
    decreases |c|
  {
    if c == [] then 0 else c[0].quantity + TotalItems(c[1..])
  }

  /** `getTotalPrice`: price times quantity summed over the entries whose id has a price. */
  function TotalPrice(c: seq<CartItem>, prices: map<int, int>): int
    decreases |c|
  {
    if c == [] then 0
    else (if c[0].productId in prices then prices[c[0].productId] * c[0].quantity else 0) + TotalPrice(c[1..], prices)
  }

  /** `getItemQuantity`: the quantity of the first entry with `id`, 0 if there is none. */
  function ItemQuantity(c: seq<CartItem>, id: int): (r: int)
    ensures Absent(c, id) ==> r == 0
    ensures FindIndex(c, id).Some? ==> r == c[FindIndex(c, id).value].quantity
    decreases |c|
  {
    if c == [] then 0
    else if c[0].productId == id then c[0].quantity
    else ItemQuantity(c[1..], id)
  }

  /** `isInCart`. */
  predicate IsInCart(c: seq<CartItem>, id: int) {
    ItemQuantity(c, id) > 0
  }

  /** `getUniqueItemsCount`: the number of entries, which on a cart without
      repeated ids is the number of distinct products. */
  function UniqueCount(c: seq<CartItem>): nat {
    |c|
  }

  /** The distinct product ids in a cart. */
  ghost function Ids(c: seq<CartItem>): set<int> {
    set i | 0 <= i < |c| :: c[i].productId
  }

  /** On a cart without repeated ids the entry count is the number of distinct products. */
  lemma {:induction false} UniqueCountDistinct(c: seq<CartItem>)
    requires NoDupIds(c)
    ensures UniqueCount(c) == |Ids(c)|
    decreases |c|
  {
    if c != [] {
      var rest := c[1..];
      UniqueCountDistinct(rest);
      assert Ids(c) == {c[0].productId} + Ids(rest) by {
        forall x | x in Ids(c)
          ensures x in {c[0].productId} + Ids(rest)
        {
          var i :| 0 <= i < |c| && c[i].productId == x;
          if i > 0 {
            assert rest[i - 1].productId == x;
          }
        }
        forall x | x in Ids(rest)
          ensures x in Ids(c)
        {
          var i :| 0 <= i < |rest| && rest[i].productId == x;
          assert c[i + 1].productId == x;
        }
      }
      assert c[0].productId !in Ids(rest);
    }
  }

  lemma {:induction false} TotalItemsAppend(a: seq<CartItem>, b: seq<CartItem>)
    ensures TotalItems(a + b) == TotalItems(a) + TotalItems(b)
    decreases |a|
  {
    if a == [] {
      assert a + b == b;
    } else {
      TotalItemsAppend(a[1..], b);
      assert (a + b)[0] == a[0] && (a + b)[1..] == a[1..] + b;
    }
  }

  lemma {:induction false} TotalItemsUpdate(c: seq<CartItem>, i: nat, x: CartItem)
    requires i < |c|
    ensures TotalItems(c[i := x]) == TotalItems(c) - c[i].quantity + x.quantity
    decreases i
  {
    if i > 0 {
      TotalItemsUpdate(c[1..], i - 1, x);
      assert c[i := x][1..] == c[1..][i - 1 := x];
    } else {
      assert c[i := x][1..] == c[1..];
    }
  }

  /** Adding `q` of a product raises the item count by exactly `q`, whether or not it was present. */
  lemma AddToTotal(c: seq<CartItem>, id: int, q: int)
    ensures TotalItems(AddTo(c, id, q)) == TotalItems(c) + q
  {
    match FindIndex(c, id) {
      case Some(i) =>
        var x := c[i].(quantity := c[i].quantity + q);
        assert AddTo(c, id, q) == c[i := x];
        TotalItemsUpdate(c, i, x);
      case None =>
        var e := [CartItem(id, q)];
        assert AddTo(c, id, q) == c + e;
        TotalItemsAppend(c, e);
        assert e[1..] == [];
    }
  }

  /** Adding a present product changes only that entry's quantity: same length,
      no new entry; adding an absent one appends a single entry at the end. */
  lemma AddToShape(c: seq<CartItem>, id: int, q: int)
    ensures !Absent(c, id) ==> |AddTo(c, id, q)| == |c|
    ensures !Absent(c, id) ==> forall j :: 0 <= j < |c| ==> AddTo(c, id, q)[j].productId == c[j].productId
    ensures !Absent(c, id) ==> ItemQuantity(AddTo(c, id, q), id) == ItemQuantity(c, id) + q
    ensures Absent(c, id) ==> AddTo(c, id, q) == c + [CartItem(id, q)]
  {
    if !Absent(c, id) {
      var i := FindIndex(c, id).value;
      var r := AddTo(c, id, q);
      assert FindIndex(r, id) == Some(i) by {
        FindIndexFirst(r, id, i);
      }
    }
  }

  /** The first-match characterisation pins `FindIndex` down. */
  lemma FindIndexFirst(c: seq<CartItem>, id: int, i: nat)
    requires i < |c| && c[i].productId == id
    requires forall j :: 0 <= j < i ==> c[j].productId != id
    ensures FindIndex(c, id) == Some(i)
  {
    assert !Absent(c, id);
  }

  /** Adding to one product leaves every other product's quantity as it was. */
  lemma AddToOthers(c: seq<CartItem>, id: int, q: int, other: int)
    requires other != id
    ensures ItemQuantity(AddTo(c, id, q), other) == ItemQuantity(c, other)
  {
    var r := AddTo(c, id, q);
    match FindIndex(c, other)
    case Some(j) =>
      assert r[j] == c[j];
      FindIndexFirst(r, other, j);
    case None =>
      assert Absent(r, other);
  }

  lemma AddToKeepsNoDup(c: seq<CartItem>, id: int, q: int)
    requires NoDupIds(c)
    ensures NoDupIds(AddTo(c, id, q))
  {
  }

  lemma {:induction false} RemoveFromKeepsNoDup(c: seq<CartItem>, id: int)
    requires NoDupIds(c)
    ensures NoDupIds(RemoveFrom(c, id))
    decreases |c|
  {
    if c != [] {
      RemoveFromKeepsNoDup(c[1..], id);
      var rest := RemoveFrom(c[1..], id);
      assert forall k :: 0 <= k < |rest| ==> rest[k].productId != c[0].productId by {
        forall k | 0 <= k < |rest|
          ensures rest[k].productId != c[0].productId
        {
          assert rest[k] in c[1..];
        }
      }
    }
  }

  /** Removing a product (from a cart without repeated ids) lowers the item count
      by exactly its quantity. */
  lemma {:induction false} RemoveFromTotal(c: seq<CartItem>, id: int)
    requires NoDupIds(c)
    ensures TotalItems(RemoveFrom(c, id)) == TotalItems(c) - ItemQuantity(c, id)
    decreases |c|
  {
    if c != [] {
      var rest := RemoveFrom(c[1..], id);
      if c[0].productId == id {
        assert RemoveFrom(c, id) == rest;
        assert Absent(c[1..], id);
        FilterKeepsAll((it: CartItem) => it.productId != id, c[1..]);
      } else {
        assert RemoveFrom(c, id) == [c[0]] + rest;
        RemoveFromTotal(c[1..], id);
      }
    }
  }

  /** The summed quantity of every entry with `id`, repeated entries included. */
  function IdTotal(c: seq<CartItem>, id: int): int
    decreases |c|
  {
    if c == [] then 0 else (if c[0].productId == id then c[0].quantity else 0) + IdTotal(c[1..], id)
  }

  /** On any cart, repeated ids included, removing a product lowers the item
      count by the summed quantity of all its entries. */
  lemma {:induction false} RemoveFromTotalAny(c: seq<CartItem>, id: int)
    ensures TotalItems(RemoveFrom(c, id)) == TotalItems(c) - IdTotal(c, id)
    decreases |c|
  {
    if c != [] {
      var rest := RemoveFrom(c[1..], id);
      RemoveFromTotalAny(c[1..], id);
      if c[0].productId == id {
        assert RemoveFrom(c, id) == rest;
      } else {
        assert RemoveFrom(c, id) == [c[0]] + rest;
      }
    }
  }

  /** Removal keeps the remaining entries in their order and leaves the product's quantity at 0. */
  lemma RemoveFromGone(c: seq<CartItem>, id: int)
    ensures IsSubsequence(RemoveFrom(c, id), c)
    ensures ItemQuantity(RemoveFrom(c, id), id) == 0 && !IsInCart(RemoveFrom(c, id), id)
  {
    FilterIsSubsequence((it: CartItem) => it.productId != id, c);
  }

  /** Setting a present product's quantity to `q >= 1` changes that product's
      quantity to `q`, the count by `q` minus the old quantity, and nothing else. */
  lemma SetQuantityPresent(c: seq<CartItem>, id: int, q: int, other: int)
    requires q >= 1 && !Absent(c, id)
    ensures SetQuantity(c, id, q).Some?
    ensures ItemQuantity(SetQuantity(c, id, q).value, id) == q
    ensures TotalItems(SetQuantity(c, id, q).value) == TotalItems(c) - ItemQuantity(c, id) + q
    ensures other != id ==> ItemQuantity(SetQuantity(c, id, q).value, other) == ItemQuantity(c, other)
    ensures NoDupIds(c) ==> NoDupIds(SetQuantity(c, id, q).value)
  {
    var i := FindIndex(c, id).value;
    var r := SetQuantity(c, id, q).value;
    FindIndexFirst(r, id, i);
    TotalItemsUpdate(c, i, c[i].(quantity := q));
    if other != id {
      match FindIndex(c, other)
      case Some(j) =>
        FindIndexFirst(r, other, j);
      case None =>
        assert Absent(r, other);
    }
  }

  lemma {:induction false} TotalPriceAppend(a: seq<CartItem>, b: seq<CartItem>, prices: map<int, int>)
    ensures TotalPrice(a + b, prices) == TotalPrice(a, prices) + TotalPrice(b, prices)
    decreases |a|
  {
    if a == [] {
      assert a + b == b;
    } else {
      TotalPriceAppend(a[1..], b, prices);
      assert (a + b)[1..] == a[1..] + b;
    }
  }

  /** Entries whose product has no price contribute nothing to the total price. */
  lemma {:induction false} TotalPriceUnpriced(c: seq<CartItem>, prices: map<int, int>)
    requires forall i :: 0 <= i < |c| ==> c[i].productId !in prices
    ensures TotalPrice(c, prices) == 0
    decreases |c|
  {
    if c != [] {
      TotalPriceUnpriced(c[1..], prices);
    }
  }

  /** Adding `q` of a priced product that was absent raises the total price by price times `q`. */
  lemma AddToPrice(c: seq<CartItem>, id: int, q: int, prices: map<int, int>)
    requires Absent(c, id) && id in prices
    ensures TotalPrice(AddTo(c, id, q), prices) == TotalPrice(c, prices) + prices[id] * q
  {
    TotalPriceAppend(c, [CartItem(id, q)], prices);
  }

  /** The stream of item counts subscribers see: one count per emitted cart. */
  function CartCounts(emissions: seq<seq<CartItem>>): (r: seq<int>)
    ensures |r| == |emissions|
    ensures forall k :: 0 <= k < |r| ==> r[k] == TotalItems(emissions[k])
    decreases |emissions|
  {
    if emissions == [] then [] else [TotalItems(emissions[0])] + CartCounts(emissions[1..])
  }

  class CartService {
    /** The cart as stored (storage is read afresh by every operation). */
    var cart: seq<CartItem>
    /** Every cart value emitted to `cartItems$`, oldest first. */
    var emissions: seq<seq<CartItem>>

    /** Created with the stored cart (`[]` when storage is empty or unreadable);
        the subject starts with it and the constructor emits it a second time. */
    constructor (saved: seq<CartItem>)
      ensures cart == saved && emissions == [saved, saved]
    {
      cart := saved;
      emissions := [saved, saved];
    }

    /** `saveCartToStorage`: when the storage write succeeds (`stored`) the
        cart is written and emitted; when `setItem` throws, the error is
        swallowed and neither the stored cart nor the subject changes. */
    method Save(c: seq<CartItem>, stored: bool)
      modifies this
      ensures stored ==> cart == c && emissions == old(emissions) + [c]
      ensures !stored ==> cart == old(cart) && emissions == old(emissions)
    {
      if stored {
        cart := c;
        emissions := emissions + [c];
      }
    }

    method AddToCart(id: int, q: int, stored: bool)
      modifies this
      ensures cart == if stored then AddTo(old(cart), id, q) else old(cart)
      ensures emissions == if stored then old(emissions) + [cart] else old(emissions)
      ensures stored ==> TotalItems(cart) == TotalItems(old(cart)) + q
    {
      AddToTotal(cart, id, q);
      var current := cart;
      var i := FindIndex(current, id);
      if i.Some? {
        current := current[i.value := current[i.value].(quantity := current[i.value].quantity + q)];
      } else {
        current := current + [CartItem(id, q)];
      }
      Save(current, stored);
    }

    method RemoveFromCart(id: int, stored: bool)
      modifies this
      ensures cart == if stored then RemoveFrom(old(cart), id) else old(cart)
      ensures emissions == if stored then old(emissions) + [cart] else old(emissions)
    {
      Save(RemoveFrom(cart, id), stored);
    }

    /** `q < 1` is exactly `removeFromCart`; otherwise a present entry is set
        and saved, and an absent id leaves the cart unsaved and unemitted. */
    method UpdateQuantity(id: int, q: int, stored: bool)
      modifies this
      ensures SetQuantity(old(cart), id, q).Some? && stored ==>
        cart == SetQuantity(old(cart), id, q).value && emissions == old(emissions) + [cart]
      ensures SetQuantity(old(cart), id, q).None? || !stored ==> cart == old(cart) && emissions == old(emissions)
    {
      if q < 1 {
        RemoveFromCart(id, stored);
        return;
      }
      var current := cart;
      var i := FindIndex(current, id);
      if i.Some? {
        current := current[i.value := current[i.value].(quantity := q)];
        Save(current, stored);
      }
    }

    method ClearCart(stored: bool)
      modifies this
      ensures cart == if stored then [] else old(cart)
      ensures emissions == if stored then old(emissions) + [[]] else old(emissions)
      ensures stored ==> TotalItems(cart) == 0 && UniqueCount(cart) == 0
    {
      Save([], stored);
    }
  }
}
