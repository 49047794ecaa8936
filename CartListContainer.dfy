/** The cart page: it joins the stored cart with a product lookup per entry and
    computes subtotal, shipping and total. */
module CartListContainer {
  import opened Wrappers
  import opened Seqs
  import opened Cart
  import opened ProductModel

  const UnknownTitle := "Неизвестный товар"
  const PlaceholderImage := "assets/images/svg/placeholder.svg"
  /** Shipping is free from this subtotal on. */
  const FreeShippingFrom := 1000
  const ShippingFee := 100
  const LoadFailedMessage := "Ошибка при загрузке товаров"

  /** One row: the entry's id and quantity, the product's title (or the
      fallback when it is empty), its price, its first image (or the
      placeholder when there is none or it is empty), description and category name. */
  function Detail(item: CartItem, p: Product): (d: CartItemDetails)
    ensures d.productId == item.productId && d.quantity == item.quantity && d.price == p.price
    ensures d.title == (if p.title != "" then p.title else UnknownTitle)
    ensures d.image == (if |p.images| > 0 && p.images[0] != "" then p.images[0] else PlaceholderImage)
    ensures d.title != "" && d.image != ""
  {
    CartItemDetails(
      item.productId,
      item.quantity,
      if p.title != "" then p.title else UnknownTitle,
      p.price,
      if |p.images| > 0 && p.images[0] != "" then p.images[0] else PlaceholderImage,
      p.description,
      p.category.name)
  }

  /** The row of one entry: its details when its lookup found a product, none otherwise. */
  function RowOf(item: CartItem, found: Option<Product>): seq<CartItemDetails> {
    if found.Some? then [Detail(item, found.value)] else []
  }

  /** The rows for the entries whose lookup found a product, in cart order. */
  function Rows(items: seq<CartItem>, found: seq<Option<Product>>): (r: seq<CartItemDetails>)
    requires |items| == |found|
    ensures |r| <= |items|
    decreases |items|
  {
    if items == [] then []
    else RowOf(items[0], found[0]) + Rows(items[1..], found[1..])
  }

  /** The rows of a cart with one more entry in front. */
  lemma RowsCons(x: CartItem, f: Option<Product>, items: seq<CartItem>, found: seq<Option<Product>>)
    requires |items| == |found|
    ensures Rows([x] + items, [f] + found) == RowOf(x, f) + Rows(items, found)
  {
    assert ([x] + items)[1..] == items && ([f] + found)[1..] == found;
  }

  /** Rows of two carts put together are the rows of each, put together; with
      the one-entry cases this fixes the rows of any mix of found and missing
      products. */
  lemma {:induction false} RowsAppend(a: seq<CartItem>, fa: seq<Option<Product>>, b: seq<CartItem>, fb: seq<Option<Product>>)
    requires |a| == |fa| && |b| == |fb|
    ensures Rows(a + b, fa + fb) == Rows(a, fa) + Rows(b, fb)
    decreases |a|
  {
    if a == [] {
      assert a + b == b && fa + fb == fb;
    } else {
      RowsAppend(a[1..], fa[1..], b, fb);
      assert a == [a[0]] + a[1..] && fa == [fa[0]] + fa[1..];
      assert a + b == [a[0]] + (a[1..] + b) && fa + fb == [fa[0]] + (fa[1..] + fb);
      RowsCons(a[0], fa[0], a[1..], fa[1..]);
      RowsCons(a[0], fa[0], a[1..] + b, fa[1..] + fb);
    }
  }

  /** The number of lookups that found a product. */
  function FoundCount(found: seq<Option<Product>>): nat
    decreases |found|
  {
    if found == [] then 0 else (if found[0].Some? then 1 else 0) + FoundCount(found[1..])
  }

  /** There is one row per found product, every found product's row is there,
      and every row is the row of some found product. */
  lemma {:induction false} RowsFound(items: seq<CartItem>, found: seq<Option<Product>>)
    requires |items| == |found|
    ensures |Rows(items, found)| == FoundCount(found)
    ensures forall i :: 0 <= i < |items| && found[i].Some? ==> Detail(items[i], found[i].value) in Rows(items, found)
    ensures forall d :: d in Rows(items, found) ==>
      exists i :: 0 <= i < |items| && found[i].Some? && d == Detail(items[i], found[i].value)
    decreases |items|
  {
    if items != [] {
      RowsFound(items[1..], found[1..]);
      var rest := Rows(items[1..], found[1..]);
      forall i | 0 <= i < |items| && found[i].Some?
        ensures Detail(items[i], found[i].value) in Rows(items, found)
      {
        if i > 0 {
          assert items[1..][i - 1] == items[i] && found[1..][i - 1] == found[i];
        }
      }
      forall d | d in Rows(items, found)
        ensures exists i :: 0 <= i < |items| && found[i].Some? && d == Detail(items[i], found[i].value)
      {
        if !(found[0].Some? && d == Detail(items[0], found[0].value)) {
          assert d in rest;
          var j :| 0 <= j < |items[1..]| && found[1..][j].Some? && d == Detail(items[1..][j], found[1..][j].value);
          assert found[j + 1].Some? && d == Detail(items[j + 1], found[j + 1].value);
        }
      }
    }
  }

  /** The (id, quantity) pair a row came from. */
  function Entry(d: CartItemDetails): CartItem {
    CartItem(d.productId, d.quantity)
  }

  /** Rows keep the cart's order and quantities: read back as entries they are
      the cart with the entries whose product was not found deleted. */
  lemma {:induction false} RowsKeepCartOrder(items: seq<CartItem>, found: seq<Option<Product>>)
    requires |items| == |found|
    ensures IsSubsequence(MapSeq(Entry, Rows(items, found)), items)
    decreases |items|
  {
    if items != [] {
      RowsKeepCartOrder(items[1..], found[1..]);
      var rest := Rows(items[1..], found[1..]);
      if found[0].Some? {
        var r := Rows(items, found);
        assert r == [Detail(items[0], found[0].value)] + rest;
        assert MapSeq(Entry, r)[1..] == MapSeq(Entry, rest);
      } else {
        assert Rows(items, found) == rest;
        SubsequenceSkip(MapSeq(Entry, rest), items);
      }
    }
  }

  /** When every lookup succeeds there is one row per entry, position by position. */
  lemma {:induction false} RowsAllFound(items: seq<CartItem>, found: seq<Option<Product>>)
    requires |items| == |found|
    requires forall i :: 0 <= i < |found| ==> found[i].Some?
    ensures |Rows(items, found)| == |items|
    ensures forall i :: 0 <= i < |items| ==> Rows(items, found)[i] == Detail(items[i], found[i].value)
    decreases |items|
  {
    if items != [] {
      RowsAllFound(items[1..], found[1..]);
    }
  }

  /** When no lookup succeeds there are no rows. */
  lemma {:induction false} RowsNoneFound(items: seq<CartItem>, found: seq<Option<Product>>)
    requires |items| == |found|
    requires forall i :: 0 <= i < |found| ==> found[i].None?
    ensures Rows(items, found) == []
    decreases |items|
  {
    if items != [] {
      RowsNoneFound(items[1..], found[1..]);
    }
  }

  /** The sum of price times quantity over the rows. */
  function Subtotal(rows: seq<CartItemDetails>): int
    decreases |rows|
  {
    if rows == [] then 0 else rows[0].price * rows[0].quantity + Subtotal(rows[1..])
  }

  lemma {:induction false} SubtotalAppend(a: seq<CartItemDetails>, b: seq<CartItemDetails>)
    ensures Subtotal(a + b) == Subtotal(a) + Subtotal(b)
    decreases |a|
  {
    if a == [] {
      assert a + b == b;
    } else {
      SubtotalAppend(a[1..], b);
      assert (a + b)[1..] == a[1..] + b;
    }
  }

  /** Free from 1000 on, 100 below. */
  function Shipping(subtotal: int): (r: int)
    ensures r == 0 <==> subtotal >= FreeShippingFrom
    ensures r != 0 ==> r == ShippingFee
  {
    if subtotal >= FreeShippingFrom then 0 else ShippingFee
  }

  class CartListContainerComponent {
    var cartItemsDetails: seq<CartItemDetails>
    var isLoading: bool
    var subtotal: int
    var shipping: int
    var total: int
    /** Every snackbar message shown, oldest first. */
    var snackbars: seq<string>

    constructor ()
      ensures cartItemsDetails == [] && isLoading && subtotal == 0 && shipping == 0 && total == 0
      ensures snackbars == []
    {
      snackbars := [];
      cartItemsDetails := [];
      isLoading := true;
      subtotal := 0;
      shipping := 0;
      total := 0;
    }

    /** The totals follow the rows. */
    ghost predicate TotalsConsistent()
      reads this
    {
      subtotal == Subtotal(cartItemsDetails) && shipping == Shipping(subtotal) && total == subtotal + shipping
    }

    method CalculateTotals()
      modifies this
      ensures cartItemsDetails == old(cartItemsDetails) && isLoading == old(isLoading) && snackbars == old(snackbars)
      ensures subtotal == Subtotal(cartItemsDetails)
      ensures shipping == Shipping(subtotal) && total == subtotal + shipping
    {
      subtotal := Subtotal(cartItemsDetails);
      shipping := if subtotal >= FreeShippingFrom then 0 else ShippingFee;
      total := subtotal + shipping;
    }

    /** Load the page for the stored cart `items`. An empty cart needs no lookups
        and gives no rows, subtotal 0, shipping 100 and total 100. Otherwise
        `fetched` is the joined lookups: one result per entry, or `None` when
        the join failed, in which case a notice is shown and the rows and totals stay. */
    method LoadCartItems(items: seq<CartItem>, fetched: Option<seq<Option<Product>>>)
      requires items != [] && fetched.Some? ==> |fetched.value| == |items|
      modifies this
      ensures !isLoading
      ensures items == [] ==> cartItemsDetails == [] && subtotal == 0 && shipping == ShippingFee && total == ShippingFee
      ensures items != [] && fetched.Some? ==> cartItemsDetails == Rows(items, fetched.value) && TotalsConsistent()
      ensures items != [] && fetched.None? ==>
        cartItemsDetails == old(cartItemsDetails) && subtotal == old(subtotal) &&
        shipping == old(shipping) && total == old(total)
      ensures snackbars == if items != [] && fetched.None? then old(snackbars) + [LoadFailedMessage] else old(snackbars)
    {
      isLoading := true;
      if |items| == 0 {
        cartItemsDetails := [];
        CalculateTotals();
        isLoading := false;
        return;
      }
      match fetched
      case Some(results) =>
        cartItemsDetails := Rows(items, results);
        CalculateTotals();
        isLoading := false;
      case None =>
        snackbars := snackbars + [LoadFailedMessage];
        isLoading := false;
    }
  }
}
