/** The header bar: search dispatch from the header field, navigation to a
    chosen product or the cart, and the cart badge. */
module HeaderNavbar {
  import opened Wrappers
  import opened Text
  import opened ProductModel
  import opened Router
  import opened Cart

  /** What a header search does, in order. */
  datatype Action = Search(term: string) | ClearFilters | Navigate(to: Navigation)

  /** `onSearch(term)` while the router is at `url`: a term longer than two
      characters is searched, an empty one clears the filters; then, on a
      product page the term (or its removal) is merged into the query, and
      elsewhere a non-empty term opens the product list with it. */
  function OnSearch(term: string, url: string): (r: seq<Action>)
    ensures |r| <= 2
    ensures |term| > 2 ==> |r| >= 1 && r[0] == Search(term)
    ensures term == "" ==> |r| >= 1 && r[0] == ClearFilters
    ensures Contains(url, "/products") ==> (|r| >= 1 &&
      r[|r| - 1] == Navigate(Navigation([], map["search" := if term != "" then Some(term) else None], true)))
    ensures !Contains(url, "/products") && term != "" ==> (|r| >= 1 &&
      r[|r| - 1] == Navigate(Navigation(["/products"], map["search" := Some(term)], false)))
    ensures 0 < |term| <= 2 ==> forall i :: 0 <= i < |r| ==> r[i].Navigate?
    ensures !Contains(url, "/products") && term == "" ==> r == [ClearFilters]
  {
    var service := if |term| > 2 then [Search(term)] else if term == "" then [ClearFilters] else [];
    var nav :=
      if Contains(url, "/products") then
        [Navigate(Navigation([], map["search" := if term != "" then Some(term) else None], true))]
      else if term != "" then [Navigate(Navigation(["/products"], map["search" := Some(term)], false))]
      else [];
    assert 0 < |term| <= 2 ==> service + nav == nav;
    service + nav
  }

  /** `onSearchProduct`: open the chosen product's page. */
  function ProductPage(p: Product): (n: Navigation)
    ensures n.commands == ["/products", IntToString(p.id)] && n.queryParams == map[] && !n.merge
  {
    Navigation(["/products", IntToString(p.id)], map[], false)
  }

  class HeaderNavbarComponent {
    const cartService: CartService
    var cartItemsCount: int
    var actions: seq<Action>

    constructor (cartService: CartService)
      ensures this.cartService == cartService && cartItemsCount == 0 && actions == []
    {
      this.cartService := cartService;
      cartItemsCount := 0;
      actions := [];
    }

    /** The badge shows the cart's current total quantity. */
    ghost predicate Mirrors()
      reads this, cartService
    {
      cartItemsCount == TotalItems(cartService.cart)
    }

    /** Each emitted cart count is copied to the badge. */
    method OnCartCount(count: int)
      modifies this
      ensures cartItemsCount == count && actions == old(actions)
    {
      cartItemsCount := count;
    }

    /** Subscribing replays the count of the cart's current value. */
    method NgOnInit()
      modifies this
      ensures Mirrors() && actions == old(actions)
    {
      OnCartCount(TotalItems(cartService.cart));
    }

    /** After the cart service replays its emissions one by one, the badge shows the last count. */
    method Replay(counts: seq<int>)
      requires |counts| > 0
      modifies this
      ensures cartItemsCount == counts[|counts| - 1] && actions == old(actions)
    {
      var i := 0;
      while i < |counts|
        invariant 0 <= i <= |counts|
        invariant i > 0 ==> cartItemsCount == counts[i - 1]
        invariant actions == old(actions)
      {
        OnCartCount(counts[i]);
        i := i + 1;
      }
    }

    method Search(term: string, url: string)
      modifies this
      ensures actions == old(actions) + OnSearch(term, url) && cartItemsCount == old(cartItemsCount)
    {
      actions := actions + OnSearch(term, url);
    }

    method OnSearchProduct(p: Product)
      modifies this
      ensures actions == old(actions) + [Navigate(ProductPage(p))] && cartItemsCount == old(cartItemsCount)
    {
      actions := actions + [Navigate(ProductPage(p))];
    }

    method GoToCart()
      modifies this
      ensures actions == old(actions) + [Navigate(UrlTree("/cart"))] && cartItemsCount == old(cartItemsCount)
    {
      actions := actions + [Navigate(UrlTree("/cart"))];
    }
  }

}
