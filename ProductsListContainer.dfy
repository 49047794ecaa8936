/** The product / category list page: it keeps the search term, mirrors the
    term and the selected category into the URL, and forwards searches,
    category choices and page requests to the products service. What that
    service then does is not part of this model; its calls are recorded. */
module ProductsListContainer {
  import opened Wrappers
  import opened Text
  import opened ProductModel
  import opened Router

  datatype DisplayType = Products | Categories

  /** A call on the products service. */
  datatype ServiceCall =
    | SearchProducts(term: string)
    | ClearAllFilters
    | SelectCategoryById(id: Option<int>)
    | LoadMoreProducts

  /** `searchResultsCount$`: nothing for an empty or one-character term,
      otherwise how many products the store holds. */
  function SearchResultsCount(term: string, products: seq<Product>): (r: Option<nat>)
    ensures r.None? <==> |term| < 2
    ensures r.Some? ==> r.value == |products|
  {
    if term == "" || |term| < 2 then None else Some(|products|)
  }

  /** The category a click on `categoryId` selects: none when it is the id of
      the category already selected (compared as strings), otherwise
      `Number(categoryId)`, given as `asNumber`. */
  function CategoryToggle(selected: Option<Category>, categoryId: string, asNumber: int): (r: Option<int>)
    ensures selected.Some? && IntToString(selected.value.id) == categoryId ==> r.None?
    ensures !(selected.Some? && IntToString(selected.value.id) == categoryId) ==> r == Some(asNumber)
  {
    if selected.Some? && IntToString(selected.value.id) == categoryId then None else Some(asNumber)
  }

  /** Clicking the selected category deselects it; clicking any other
      category, by the decimal form of its id, selects exactly that id. */
  lemma CategoryToggleLaws(selected: Option<Category>, n: int)
    ensures selected.Some? && selected.value.id == n ==> CategoryToggle(selected, IntToString(n), n).None?
    ensures (selected.None? || selected.value.id != n) ==> CategoryToggle(selected, IntToString(n), n) == Some(n)
  {
    if selected.Some? && selected.value.id != n {
      IntToStringInjective(selected.value.id, n);
    }
  }

  /** `updateUrl`'s query: `search` is the term, or removed when it is empty;
      `category` is the selected id, or removed when none is selected. */
  function UrlQuery(search: string, category: Option<Category>): (q: map<string, Option<string>>)
    ensures q.Keys == {"search", "category"}
    ensures q["search"] == (if search != "" then Some(search) else None)
    ensures q["category"] == (if category.Some? then Some(IntToString(category.value.id)) else None)
  {
    map["search" := (if search != "" then Some(search) else None),
        "category" := (match category case Some(c) => Some(IntToString(c.id)) case None => None)]
  }

  /** The navigation `updateUrl` performs: stay on the page, merge the query. */
  function UrlUpdate(search: string, category: Option<Category>): (n: Navigation)
    ensures n.commands == [] && n.merge && n.queryParams == UrlQuery(search, category)
  {
    Navigation([], UrlQuery(search, category), true)
  }

  class ProductsListContainerComponent {
    var displayType: DisplayType
    /** The search subject's value. */
    var searchFilter: string
    var calls: seq<ServiceCall>
    var navigations: seq<Navigation>

    constructor (displayType: DisplayType)
      ensures this.displayType == displayType && searchFilter == "" && calls == [] && navigations == []
    {
      this.displayType := displayType;
      searchFilter := "";
      calls := [];
      navigations := [];
    }

    /** A new search subject value; the URL subscription follows it at once.
        `selected` is the store's selected category. */
    method SetSearchFilter(term: string, selected: Option<Category>)
      modifies this
      ensures searchFilter == term
      ensures navigations == old(navigations) + [UrlUpdate(term, selected)]
      ensures calls == old(calls) && displayType == old(displayType)
    {
      searchFilter := term;
      navigations := navigations + [UrlUpdate(term, selected)];
    }

    /** The store's selected category changed: the URL follows. */
    method OnSelectedCategoryChanged(selected: Option<Category>)
      modifies this
      ensures navigations == old(navigations) + [UrlUpdate(searchFilter, selected)]
      ensures calls == old(calls) && searchFilter == old(searchFilter) && displayType == old(displayType)
    {
      navigations := navigations + [UrlUpdate(searchFilter, selected)];
    }

    /** `initializeFromQueryParams`: take the `search` and `category` query
        parameters (`None` when absent), select the category and search as
        given, then start both URL subscriptions, each replaying at once. */
    method InitializeFromQueryParams(search: Option<string>, category: Option<string>, categoryNumber: int, selected: Option<Category>)
      modifies this
      ensures searchFilter == search.GetOr("")
      ensures calls == old(calls) +
        (if category.GetOr("") != "" then [SelectCategoryById(Some(categoryNumber))] else []) +
        (if search.GetOr("") != "" then [SearchProducts(search.GetOr(""))] else [])
      ensures navigations == old(navigations) + [UrlUpdate(searchFilter, selected), UrlUpdate(searchFilter, selected)]
      ensures displayType == old(displayType)
    {
      var searchParam := search.GetOr("");
      var categoryParam := category.GetOr("");
      searchFilter := searchParam;
      if categoryParam != "" {
        calls := calls + [SelectCategoryById(Some(categoryNumber))];
      }
      if searchParam != "" {
        calls := calls + [SearchProducts(searchParam)];
      }
      navigations := navigations + [UrlUpdate(searchFilter, selected), UrlUpdate(searchFilter, selected)];
    }

    /** A term from the list: store it (the URL follows); on the products
        view search for it, or clear the filters when it is empty; on the
        categories view call nothing. */
    method OnFilteredItems(term: string, selected: Option<Category>)
      modifies this
      ensures searchFilter == term
      ensures navigations == old(navigations) + [UrlUpdate(term, selected)]
      ensures displayType == Products && term != "" ==> calls == old(calls) + [SearchProducts(term)]
      ensures displayType == Products && term == "" ==> calls == old(calls) + [ClearAllFilters]
      ensures displayType == Categories ==> calls == old(calls)
      ensures displayType == old(displayType)
    {
      SetSearchFilter(term, selected);
      if displayType == Products && term != "" {
        calls := calls + [SearchProducts(term)];
      } else if displayType == Products && term == "" {
        calls := calls + [ClearAllFilters];
      }
    }

    /** `onCategorySelect`: toggle against the store's selected category. */
    method OnCategorySelect(categoryId: string, asNumber: int, selected: Option<Category>)
      modifies this
      ensures calls == old(calls) + [SelectCategoryById(CategoryToggle(selected, categoryId, asNumber))]
      ensures navigations == old(navigations) && searchFilter == old(searchFilter) && displayType == old(displayType)
    {
      if selected.Some? && IntToString(selected.value.id) == categoryId {
        calls := calls + [SelectCategoryById(None)];
      } else {
        calls := calls + [SelectCategoryById(Some(asNumber))];
      }
    }

    /** More pages are asked for only on the products view. */
    method LoadMore()
      modifies this
      ensures calls == old(calls) + (if displayType == Products then [LoadMoreProducts] else [])
      ensures navigations == old(navigations) && searchFilter == old(searchFilter) && displayType == old(displayType)
    {
      if displayType != Products {
        return;
      }
      calls := calls + [LoadMoreProducts];
    }

    /** Empty the term (the URL follows) and clear the service's filters. */
    method ClearAll(selected: Option<Category>)
      modifies this
      ensures searchFilter == ""
      ensures navigations == old(navigations) + [UrlUpdate("", selected)]
      ensures calls == old(calls) + [ClearAllFilters]
      ensures displayType == old(displayType)
    {
      SetSearchFilter("", selected);
      calls := calls + [ClearAllFilters];
    }
  }

}
