/** The product list component's cart controls: a product-id-to-quantity map
    rebuilt from every cart emission, and the add / increase / decrease handlers
    that call the cart service. */
module ProductsList {
  import opened Wrappers
  import opened Cart
  import opened ProductModel

  /** The map the list rebuilds from a cart, entry by entry, so that a later
      entry for the same id overwrites an earlier one. */
  function CartMap(items: seq<CartItem>): (m: map<int, int>)
    decreases |items|
  {
    if items == [] then map[]
    else CartMap(items[..|items| - 1])[items[|items| - 1].productId := items[|items| - 1].quantity]
  }

  /** The map's keys are exactly the product ids in the cart. */
  lemma {:induction false} CartMapKeys(items: seq<CartItem>, id: int)
    ensures id in CartMap(items) <==> !Absent(items, id)
    decreases |items|
  {
    if items != [] {
      var init := items[..|items| - 1];
      CartMapKeys(init, id);
      assert forall j :: 0 <= j < |init| ==> init[j] == items[j];
    }
  }

  /** The map holds the quantity of the last entry with the id. */
  lemma {:induction false} CartMapLast(items: seq<CartItem>, id: int, k: nat)
    requires k < |items| && items[k].productId == id
    requires forall j :: k < j < |items| ==> items[j].productId != id
    ensures id in CartMap(items) && CartMap(items)[id] == items[k].quantity
    decreases |items|
  {
    if k < |items| - 1 {
      var init := items[..|items| - 1];
      CartMapLast(init, id, k);
    }
  }

  /** `cartItems[id] || 0`: the mapped quantity, or 0 for an unmapped id. */
  function QuantityInCart(m: map<int, int>, id: int): (r: int)
    ensures id !in m ==> r == 0
  {
    if id in m && m[id] != 0 then m[id] else 0
  }

  /** On a cart without repeated ids the list shows, for every product, exactly
      the quantity the cart service reports. */
  lemma QuantityMatchesCart(items: seq<CartItem>, id: int)
    requires NoDupIds(items)
    ensures QuantityInCart(CartMap(items), id) == ItemQuantity(items, id)
  {
    CartMapKeys(items, id);
    var found := FindIndex(items, id);
    if found.Some? {
      CartMapLast(items, id, found.value);
    }
  }

  /** The argument of the filter and category outputs: a plain string, or an
      object with an optional `param`, or nothing. */
  datatype FilterEvent = Text(text: string) | Param(param: Option<string>) | NoEvent

  /** `typeof e === 'string' ? e : e?.param || ''`. */
  function EventTerm(e: FilterEvent): (r: string)
    ensures e.Text? ==> r == e.text
    ensures e.Param? && e.param.Some? ==> r == e.param.value
    ensures e.NoEvent? || (e.Param? && e.param.None?) ==> r == ""
  {
    match e
    case Text(s) => s
    case Param(Some(p)) => p
    case Param(None) => ""
    case NoEvent => ""
  }

  /** `selectedCategory?.id === c.id`. */
  function IsCategorySelected(selected: Option<Category>, c: Category): (r: bool)
    ensures r <==> selected.Some? && selected.value.id == c.id
  {
    match selected
    case Some(s) => s.id == c.id
    case None => false
  }

  class ProductsListComponent {
    const cartService: CartService
    /** Product id to quantity, as last rebuilt from the cart. */
    var cartItems: map<int, int>
    var selectedCategory: Option<Category>
    /** Values emitted on `filterItems` and `categoryItems`. */
    var filterEmitted: seq<string>
    var categoryEmitted: seq<string>

    constructor (cartService: CartService, selectedCategory: Option<Category>)
      ensures this.cartService == cartService && this.selectedCategory == selectedCategory
      ensures cartItems == map[] && filterEmitted == [] && categoryEmitted == []
    {
      this.cartService := cartService;
      this.selectedCategory := selectedCategory;
      cartItems := map[];
      filterEmitted := [];
      categoryEmitted := [];
    }

    /** The map reflects the cart's current value, as it does after every
        emission the subscription has seen. */
    ghost predicate Synced()
      reads this, cartService
    {
      cartItems == CartMap(cartService.cart)
    }

    /** The subscription callback: reset the map and fill it from `items`. */
    method OnCartItems(items: seq<CartItem>)
      modifies this
      ensures cartItems == CartMap(items)
      ensures selectedCategory == old(selectedCategory)
      ensures filterEmitted == old(filterEmitted) && categoryEmitted == old(categoryEmitted)
    {
      var m := map[];
      var i := 0;
      while i < |items|
        invariant 0 <= i <= |items|
        invariant m == CartMap(items[..i])
      {
        assert items[..i + 1][..i] == items[..i];
        m := m[items[i].productId := items[i].quantity];
        i := i + 1;
      }
      assert items[..|items|] == items;
      cartItems := m;
    }

    /** Subscribing replays the cart's current value. */
    method NgOnInit()
      modifies this
      ensures Synced()
      ensures selectedCategory == old(selectedCategory)
      ensures filterEmitted == old(filterEmitted) && categoryEmitted == old(categoryEmitted)
    {
      OnCartItems(cartService.cart);
    }

    /** `!productId` stops id 0; any other id is added with the default
        quantity. `stored` is whether the cart's storage write succeeds; the
        quantities shown follow the cart only through what it emits. */
    method OnAddToCart(id: int, stored: bool)
      modifies this, cartService
      ensures id == 0 || !stored ==> cartService.cart == old(cartService.cart) && cartService.emissions == old(cartService.emissions)
      ensures id == 0 || !stored ==> cartItems == old(cartItems)
      ensures id != 0 && stored ==> cartService.cart == AddTo(old(cartService.cart), id, DefaultQuantity)
      ensures id != 0 && stored ==> cartItems == CartMap(cartService.cart)
      ensures old(Synced()) ==> Synced()
      ensures selectedCategory == old(selectedCategory)
      ensures filterEmitted == old(filterEmitted) && categoryEmitted == old(categoryEmitted)
    {
      if id == 0 {
        return;
      }
      var before := |cartService.emissions|;
      cartService.AddToCart(id, DefaultQuantity, stored);
      if |cartService.emissions| != before {
        OnCartItems(cartService.cart);
      }
    }

    /** Ask for one more than shown; for a product not in the cart that is
        `updateQuantity(id, 1)`, which the cart ignores. */
    method OnIncreaseQuantity(id: int, stored: bool)
      modifies this, cartService
      ensures var saved := SetQuantity(old(cartService.cart), id, QuantityInCart(old(cartItems), id) + 1);
        (saved.Some? && stored ==> cartService.cart == saved.value && cartItems == CartMap(cartService.cart)) &&
        (saved.None? || !stored ==> cartService.cart == old(cartService.cart) && cartItems == old(cartItems))
      ensures old(Synced()) ==> Synced()
      ensures selectedCategory == old(selectedCategory)
      ensures filterEmitted == old(filterEmitted) && categoryEmitted == old(categoryEmitted)
    {
      var q := QuantityInCart(cartItems, id);
      var before := |cartService.emissions|;
      cartService.UpdateQuantity(id, q + 1, stored);
      if |cartService.emissions| != before {
        OnCartItems(cartService.cart);
      }
    }

    /** Above 1, ask for one less; at 1 or below, remove the product. */
    method OnDecreaseQuantity(id: int, stored: bool)
      modifies this, cartService
      ensures var q := QuantityInCart(old(cartItems), id);
        q > 1 && old(Synced()) && stored ==> SetQuantity(old(cartService.cart), id, q - 1) == Some(cartService.cart)
      ensures QuantityInCart(old(cartItems), id) <= 1 && stored ==> cartService.cart == RemoveFrom(old(cartService.cart), id)
      ensures !stored ==> cartService.cart == old(cartService.cart) && cartItems == old(cartItems)
      ensures old(Synced()) ==> Synced()
      ensures selectedCategory == old(selectedCategory)
      ensures filterEmitted == old(filterEmitted) && categoryEmitted == old(categoryEmitted)
    {
      var q := QuantityInCart(cartItems, id);
      if q > 1 {
        assert old(Synced()) ==> !Absent(cartService.cart, id) by {
          CartMapKeys(cartService.cart, id);
        }
        var before := |cartService.emissions|;
        cartService.UpdateQuantity(id, q - 1, stored);
        if |cartService.emissions| != before {
          OnCartItems(cartService.cart);
        }
      } else {
        var before := |cartService.emissions|;
        cartService.RemoveFromCart(id, stored);
        if |cartService.emissions| != before {
          OnCartItems(cartService.cart);
        }
      }
    }

    method OnRemoveFromCart(id: int, stored: bool)
      modifies this, cartService
      ensures cartService.cart == if stored then RemoveFrom(old(cartService.cart), id) else old(cartService.cart)
      ensures cartItems == if stored then CartMap(cartService.cart) else old(cartItems)
      ensures old(Synced()) ==> Synced()
      ensures selectedCategory == old(selectedCategory)
      ensures filterEmitted == old(filterEmitted) && categoryEmitted == old(categoryEmitted)
    {
      var before := |cartService.emissions|;
      cartService.RemoveFromCart(id, stored);
      if |cartService.emissions| != before {
        OnCartItems(cartService.cart);
      }
    }

    method OnFilteredItems(e: FilterEvent)
      modifies this
      ensures filterEmitted == old(filterEmitted) + [EventTerm(e)]
      ensures cartItems == old(cartItems) && categoryEmitted == old(categoryEmitted)
      ensures selectedCategory == old(selectedCategory)
    {
      filterEmitted := filterEmitted + [EventTerm(e)];
    }

    method OnCategorySelect(e: FilterEvent)
      modifies this
      ensures categoryEmitted == old(categoryEmitted) + [EventTerm(e)]
      ensures cartItems == old(cartItems) && filterEmitted == old(filterEmitted)
      ensures selectedCategory == old(selectedCategory)
    {
      categoryEmitted := categoryEmitted + [EventTerm(e)];
    }
  }
}
